/** What an operation of the gateway comes to while nothing else happens: the whole new state,
    for every state it may start in and every answer from outside. */
module GatewayOutcomes {
  import opened GoInt
  import opened Messages
  import opened GatewaySpec
  import opened Wrappers
  import P = PendingTask

  /** `g'` is `g` after the actions, with `records` still to be told. */
  ghost predicate Reached(g: Gateway, i: nat, oracle: nat -> Choice, n: nat, g': Gateway)
    requires Refs(g)
  {
    Refs(g') && Alone(g, i, oracle, n) == g'
  }

  lemma Starts(g: Gateway, i: nat, oracle: nat -> Choice)
    requires Refs(g)
    ensures Reached(g, i, oracle, 0, g)
  {
  }

  lemma OneMore(g: Gateway, i: nat, oracle: nat -> Choice, n: nat, before: Gateway)
    requires Refs(g) && Reached(g, i, oracle, n, before) && i < |before.ops|
    ensures var a := Advance(i, if before.ops[i].Sending? then Fails else oracle(n));
            Refs(before) && Refs(Step(before, a)) && Reached(g, i, oracle, n + 1, Step(before, a))
  {
    hide Refs, Step;
    AloneOnce(g, i, oracle, n, before);
    StepKeepsRefs(before, Advance(i, if before.ops[i].Sending? then Fails else oracle(n)));
  }

  /** Operation `i` is about to take the action that `op` names. */
  function At(g: Gateway, i: nat, op: Op): (g': Gateway)
    requires i < |g.ops|
    ensures |g'.ops| == |g.ops| && g'.ops[i] == op
  {
    g.(ops := g.ops[i := op])
  }

  lemma Moves(g: Gateway, i: nat, op: Op, op': Op)
    requires i < |g.ops|
    ensures Become(At(g, i, op), i, op') == At(g, i, op') && Become(g, i, op') == At(g, i, op')
  {
    assert g.ops[i := op][i := op'] == g.ops[i := op'];
  }

  lemma ReachedIs(g: Gateway, i: nat, oracle: nat -> Choice, n: nat, g': Gateway)
    requires Refs(g) && Reached(g, i, oracle, n, g')
    ensures Alone(g, i, oracle, n) == g'
  {
  }

  // ---------- A dispatch serves its next target ----------

  lemma Found(g: Gateway, i: nat, oracle: nat -> Choice, body: ClientMessage, rest: seq<int64>)
    requires Refs(g) && !g.crashed && i < |g.ops| && g.ops[i] == Dispatching(body, rest) && rest != []
    ensures var user, from := rest[0], FromDispatch(body, rest[1..]);
            Reached(g, i, oracle, 2, At(g, i, if user in g.store then Sending(user, Push(body), g.store[user], from)
                                              else Refused(user, Push(body), from)))
  {
    hide Refs, Step, Reached, Become;
    var user, from := rest[0], FromDispatch(body, rest[1..]);
    var op1 := Looking(user, Push(body), from);
    var op2 := if user in g.store then Sending(user, Push(body), g.store[user], from) else Refused(user, Push(body), from);
    Starts(g, i, oracle);
    OneMore(g, i, oracle, 0, g);
    ListStep(g, i, oracle(0));
    Moves(g, i, op1, op1);
    var g1 := At(g, i, op1);
    assert Step(g, Advance(i, oracle(0))) == g1;
    OneMore(g, i, oracle, 1, g1);
    LookStep(g1, i, oracle(1));
    Moves(g, i, op1, op2);
  }

  /** A send attempt while nobody makes room. */
  lemma Sends(g: Gateway, i: nat, oracle: nat -> Choice, n: nat, b: Gateway, user: int64, r: Request, h: nat, from: From)
    requires Refs(g) && i < |b.ops| && !b.crashed && Reached(g, i, oracle, n, At(b, i, Sending(user, r, h, from)))
    ensures h < |b.conns|
    ensures var c := b.conns[h];
            if !c.sendOpen then Reached(g, i, oracle, n + 1, At(b, i, Sending(user, r, h, from)).(crashed := true))
            else if |c.queue| < c.capacity then
              Reached(g, i, oracle, n + 2,
                      At(b.(conns := b.conns[h := c.(queue := c.queue + [r])], totalPending := b.totalPending + 1), i,
                         if from.FromRetry? then Measuring(user) else Back(from)))
            else Reached(g, i, oracle, n + 1,
                         At(b, i, match from
                                  case FromDispatch(_, _) => Listing(user, r, from)
                                  case FromRetry => Pushing(user, r, from)
                                  case FromPing => Done))
  {
    hide Refs, Step, Reached, Become;
    var op := Sending(user, r, h, from);
    var s := At(b, i, op);
    OneMore(g, i, oracle, n, s);
    SendStep(s, i, Fails);
    var c := b.conns[h];
    if c.sendOpen {
      if |c.queue| < c.capacity {
        var b1 := b.(conns := b.conns[h := c.(queue := c.queue + [r])]);
        Moves(b1, i, op, Counting(user, from));
        OneMore(g, i, oracle, n + 1, At(b1, i, Counting(user, from)));
        ListStep(At(b1, i, Counting(user, from)), i, oracle(n + 1));
        Moves(b1.(totalPending := b.totalPending + 1), i, Counting(user, from),
              if from.FromRetry? then Measuring(user) else Back(from));
      } else {
        Moves(b, i, op, match from
                        case FromDispatch(_, _) => Listing(user, r, from)
                        case FromRetry => Pushing(user, r, from)
                        case FromPing => Done);
      }
    }
  }

  /** An RPUSH to the user's list; a failing one leaves the copy where nothing reads it. */
  lemma Waits(g: Gateway, i: nat, oracle: nat -> Choice, n: nat, b: Gateway, user: int64, r: Request, from: From)
    requires Refs(g) && i < |b.ops| && !b.crashed && Reached(g, i, oracle, n, At(b, i, Pushing(user, r, from)))
    ensures var g' := if oracle(n).Works? then b.(waiting := b.waiting[user := Get(b.waiting, user) + [r]])
                      else Finish(b, user, r, false);
            Reached(g, i, oracle, n + 1, At(g', i, Back(from)))
  {
    hide Refs, Step, Reached, Become, Get, Back, Fate;
    var op := Pushing(user, r, from);
    OneMore(g, i, oracle, n, At(b, i, op));
    PushStep(At(b, i, op), i, oracle(n));
    Moves(b.(waiting := b.waiting[user := Get(b.waiting, user) + [r]]), i, op, Back(from));
    Moves(b, i, op, Back(from));
  }

  lemma ServeUnconnected(g: Gateway, i: nat, oracle: nat -> Choice, body: ClientMessage, rest: seq<int64>)
    requires Refs(g) && !g.crashed && i < |g.ops| && g.ops[i] == Dispatching(body, rest) && rest != []
    requires rest[0] !in g.store
    ensures var g' := Alone(g, i, oracle, 3);
            && g' == At(g, i, Dispatching(body, rest[1..])).(records := g'.records)
            && g'.records.table == if oracle(2).Works? then g.records.table.Report(body.id, false, 1) else g.records.table
  {
    hide Refs, Step, Become, Get, P.Table.Report, Alone;
    var op := Refused(rest[0], Push(body), FromDispatch(body, rest[1..]));
    Found(g, i, oracle, body, rest);
    OneMore(g, i, oracle, 2, At(g, i, op));
    RefusedStep(At(g, i, op), i, oracle(2));
    Moves(g, i, op, Dispatching(body, rest[1..]));
  }

  lemma ServeConnected(g: Gateway, i: nat, oracle: nat -> Choice, body: ClientMessage, rest: seq<int64>)
    requires Refs(g) && !g.crashed && i < |g.ops| && g.ops[i] == Dispatching(body, rest) && rest != []
    requires rest[0] in g.store && g.store[rest[0]] < |g.conns|
    requires var c := g.conns[g.store[rest[0]]]; !c.sendOpen || |c.queue| < c.capacity
    ensures var h := g.store[rest[0]];
            var c := g.conns[h];
            if !c.sendOpen then Alone(g, i, oracle, 3).crashed
            else
              Alone(g, i, oracle, 4) ==
              At(g, i, Dispatching(body, rest[1..])).(conns := g.conns[h := c.(queue := c.queue + [Push(body)])],
                                                      totalPending := g.totalPending + 1)
  {
    hide Refs, Step, Become, Alone;
    Found(g, i, oracle, body, rest);
    Sends(g, i, oracle, 2, g, rest[0], Push(body), g.store[rest[0]], FromDispatch(body, rest[1..]));
  }

  /** The gateway after a message for a user without room has been listed and pushed, or not. */
  function Waiting(g: Gateway, user: int64, msg: ClientMessage, works: bool): Gateway {
    if works then g.(waitSet := g.waitSet + {user}, waiting := g.waiting[user := Get(g.waiting, user) + [Push(msg)]])
    else Finish(g.(waitSet := g.waitSet + {user}), user, Push(msg), false)
  }

  lemma FullWaits(g: Gateway, i: nat, oracle: nat -> Choice, body: ClientMessage, rest: seq<int64>)
    requires Refs(g) && !g.crashed && i < |g.ops| && g.ops[i] == Dispatching(body, rest) && rest != []
    requires rest[0] in g.store && g.store[rest[0]] < |g.conns|
    requires var c := g.conns[g.store[rest[0]]]; c.sendOpen && |c.queue| >= c.capacity
    ensures |Waiting(g, rest[0], body, oracle(4).Works?).ops| == |g.ops|
    ensures Reached(g, i, oracle, 5, At(Waiting(g, rest[0], body, oracle(4).Works?), i, Dispatching(body, rest[1..])))
  {
    hide Refs, Step, Become, Get, Alone, Reached, Fate;
    var user, from := rest[0], FromDispatch(body, rest[1..]);
    Found(g, i, oracle, body, rest);
    Sends(g, i, oracle, 2, g, user, Push(body), g.store[user], from);
    Lists(g, i, oracle, 3, g, user, Push(body), from);
    Waits(g, i, oracle, 4, g.(waitSet := g.waitSet + {user}), user, Push(body), from);
  }

  lemma ServeFull(g: Gateway, i: nat, oracle: nat -> Choice, body: ClientMessage, rest: seq<int64>)
    requires Refs(g) && !g.crashed && i < |g.ops| && g.ops[i] == Dispatching(body, rest) && rest != []
    requires rest[0] in g.store && g.store[rest[0]] < |g.conns|
    requires var c := g.conns[g.store[rest[0]]]; c.sendOpen && |c.queue| >= c.capacity
    ensures var user, next, g' := rest[0], Dispatching(body, rest[1..]), Alone(g, i, oracle, 5);
            if oracle(4).Works? then
              g' == At(g, i, next).(waitSet := g.waitSet + {user}, waiting := g.waiting[user := Get(g.waiting, user) + [Push(body)]])
            else g' == At(g, i, next).(waitSet := g.waitSet + {user}, records := g'.records) && g'.records.table == g.records.table
  {
    hide Refs, Reached, Alone, Get;
    FullWaits(g, i, oracle, body, rest);
    ReachedIs(g, i, oracle, 5, At(Waiting(g, rest[0], body, oracle(4).Works?), i, Dispatching(body, rest[1..])));
  }

  /** A dispatch's turn for one target: a connected user with room gets the message at the end of
      the channel, one without room is listed for retries with the message at the end of the
      list, one who is not connected has it offered back to the send service, and a closed
      channel is a panic. Nothing else changes. */
  lemma ServedExactly(g: Gateway, i: nat, oracle: nat -> Choice, body: ClientMessage, rest: seq<int64>)
    requires Refs(g) && !g.crashed && i < |g.ops| && g.ops[i] == Dispatching(body, rest) && rest != []
    ensures var user, next := rest[0], Dispatching(body, rest[1..]);
            if user !in g.store then
              var g' := Alone(g, i, oracle, 3);
              && g' == At(g, i, next).(records := g'.records)
              && g'.records.table == if oracle(2).Works? then g.records.table.Report(body.id, false, 1) else g.records.table
            else
              var h := g.store[user];
              h < |g.conns| &&
              var c := g.conns[h];
              if !c.sendOpen then Alone(g, i, oracle, 3).crashed
              else if |c.queue| < c.capacity then
                Alone(g, i, oracle, 4) ==
                At(g, i, next).(conns := g.conns[h := c.(queue := c.queue + [Push(body)])], totalPending := g.totalPending + 1)
              else
                var g' := Alone(g, i, oracle, 5);
                if oracle(4).Works? then
                  g' == At(g, i, next).(waitSet := g.waitSet + {user},
                                        waiting := g.waiting[user := Get(g.waiting, user) + [Push(body)]])
                else g' == At(g, i, next).(waitSet := g.waitSet + {user}, records := g'.records)
                     && g'.records.table == g.records.table
  {
    hide Refs, Alone, At, Get, P.Table.Report;
    StoreRefers(g, rest[0]);
    if rest[0] !in g.store {
      ServeUnconnected(g, i, oracle, body, rest);
    } else {
      var c := g.conns[g.store[rest[0]]];
      if !c.sendOpen || |c.queue| < c.capacity {
        ServeConnected(g, i, oracle, body, rest);
      } else {
        ServeFull(g, i, oracle, body, rest);
      }
    }
  }

  lemma Lists(g: Gateway, i: nat, oracle: nat -> Choice, n: nat, b: Gateway, user: int64, r: Request, from: From)
    requires Refs(g) && i < |b.ops| && !b.crashed && Reached(g, i, oracle, n, At(b, i, Listing(user, r, from)))
    ensures Reached(g, i, oracle, n + 1, At(b.(waitSet := b.waitSet + {user}), i, Pushing(user, r, from)))
  {
    hide Refs, Step, Reached, Become;
    var s := At(b, i, Listing(user, r, from));
    OneMore(g, i, oracle, n, s);
    ListStep(s, i, oracle(n));
    Moves(b.(waitSet := b.waitSet + {user}), i, Listing(user, r, from), Pushing(user, r, from));
  }

  // ---------- A retry's turn for one user ----------

  lemma Pops(g: Gateway, i: nat, oracle: nat -> Choice, user: int64)
    requires Refs(g) && !g.crashed && i < |g.ops| && g.ops[i] == Popping(user) && oracle(0).Works? && Get(g.waiting, user) != []
    ensures var list := Get(g.waiting, user);
            var popped := g.(waiting := g.waiting[user := list[1..]]);
            Reached(g, i, oracle, 2, At(popped, i, if user in g.store then Sending(user, list[0], g.store[user], FromRetry)
                                                   else Pushing(user, list[0], FromRetry)))
  {
    hide Refs, Step, Reached, Become;
    var list := Get(g.waiting, user);
    var popped := g.(waiting := g.waiting[user := list[1..]]);
    Starts(g, i, oracle);
    OneMore(g, i, oracle, 0, g);
    PopStep(g, i, oracle(0));
    var op := Looking(user, list[0], FromRetry);
    Moves(popped, i, op, op);
    OneMore(g, i, oracle, 1, At(popped, i, op));
    LookStep(At(popped, i, op), i, oracle(1));
    Moves(popped, i, op, if user in g.store then Sending(user, list[0], g.store[user], FromRetry)
                         else Pushing(user, list[0], FromRetry));
  }

  /** After a queued retry the user leaves the set of users to retry if the list is seen empty. */
  lemma Unlists(g: Gateway, i: nat, oracle: nat -> Choice, n: nat, b: Gateway, user: int64)
    requires Refs(g) && i < |b.ops| && !b.crashed && Reached(g, i, oracle, n, At(b, i, Measuring(user)))
    ensures if oracle(n).Works? && Get(b.waiting, user) == []
            then Reached(g, i, oracle, n + 2, At(b.(waitSet := b.waitSet - {user}), i, Done))
            else Reached(g, i, oracle, n + 1, At(b, i, Done))
  {
    hide Refs, Step, Reached, Become;
    var s := At(b, i, Measuring(user));
    OneMore(g, i, oracle, n, s);
    ListStep(s, i, oracle(n));
    if oracle(n).Works? && Get(b.waiting, user) == [] {
      Moves(b, i, Measuring(user), Unlisting(user));
      OneMore(g, i, oracle, n + 1, At(b, i, Unlisting(user)));
      ListStep(At(b, i, Unlisting(user)), i, oracle(n + 1));
      Moves(b.(waitSet := b.waitSet - {user}), i, Unlisting(user), Done);
    } else {
      Moves(b, i, Measuring(user), Done);
    }
  }

  /** The popped message finds a channel with room. */
  lemma RetryQueues(g: Gateway, i: nat, oracle: nat -> Choice, user: int64, h: nat)
    requires Refs(g) && !g.crashed && i < |g.ops| && g.ops[i] == Popping(user) && oracle(0).Works? && Get(g.waiting, user) != []
    requires user in g.store && g.store[user] == h && h < |g.conns| && g.conns[h].sendOpen
    requires |g.conns[h].queue| < g.conns[h].capacity
    ensures var list, c := Get(g.waiting, user), g.conns[h];
            var unlists := oracle(4).Works? && list[1..] == [];
            Alone(g, i, oracle, if unlists then 6 else 5) ==
            At(g, i, Done).(waiting := g.waiting[user := list[1..]], totalPending := g.totalPending + 1,
                            conns := g.conns[h := c.(queue := c.queue + [list[0]])],
                            waitSet := if unlists then g.waitSet - {user} else g.waitSet)
  {
    hide Refs, Step, Become, Alone;
    var list, c := Get(g.waiting, user), g.conns[h];
    var b := g.(waiting := g.waiting[user := list[1..]]);
    Pops(g, i, oracle, user);
    Sends(g, i, oracle, 2, b, user, list[0], h, FromRetry);
    Unlists(g, i, oracle, 4, b.(conns := g.conns[h := c.(queue := c.queue + [list[0]])], totalPending := g.totalPending + 1), user);
  }

  /** It finds none, or one that stays full. */
  lemma RetryReturns(g: Gateway, i: nat, oracle: nat -> Choice, user: int64)
    requires Refs(g) && !g.crashed && i < |g.ops| && g.ops[i] == Popping(user) && oracle(0).Works? && Get(g.waiting, user) != []
    requires user in g.store ==>
               g.store[user] < |g.conns| && g.conns[g.store[user]].sendOpen
               && |g.conns[g.store[user]].queue| >= g.conns[g.store[user]].capacity
    ensures var list, n := Get(g.waiting, user), if user in g.store then 4 else 3;
            var g' := Alone(g, i, oracle, n);
            if oracle(n - 1).Works? then g' == At(g, i, Done).(waiting := g.waiting[user := list[1..] + [list[0]]])
            else g' == At(g, i, Done).(waiting := g.waiting[user := list[1..]], records := g'.records)
                 && g'.records.table == g.records.table
  {
    hide Refs, Step, Become, Alone;
    var list, n := Get(g.waiting, user), if user in g.store then 4 else 3;
    var b := g.(waiting := g.waiting[user := list[1..]]);
    Pops(g, i, oracle, user);
    if user in g.store { Sends(g, i, oracle, 2, b, user, list[0], g.store[user], FromRetry); }
    Waits(g, i, oracle, n - 1, b, user, list[0], FromRetry);
    assert b.waiting[user := list[1..] + [list[0]]] == g.waiting[user := list[1..] + [list[0]]];
  }

  /** A retry's turn: nothing happens for an unreadable or empty list; the oldest message of the
      list goes to the end of the user's channel if there is one with room, and then the user is
      unlisted if nothing else waits; otherwise it goes back, to the end of the list. */
  lemma RetriedExactly(g: Gateway, i: nat, oracle: nat -> Choice, user: int64)
    requires Refs(g) && !g.crashed && i < |g.ops| && g.ops[i] == Popping(user)
    ensures user in g.store ==> g.store[user] < |g.conns|
    ensures var list := Get(g.waiting, user);
            if oracle(0).Fails? || list == [] then Alone(g, i, oracle, 1) == At(g, i, Done)
            else if oracle(0).Garbled? then
              var g' := Alone(g, i, oracle, 1);
              && g' == At(g, i, Done).(waiting := g.waiting[user := list[1..]], records := g'.records)
              && g'.records.table == g.records.table
            else if user in g.store && !g.conns[g.store[user]].sendOpen then Alone(g, i, oracle, 3).crashed
            else if user in g.store && |g.conns[g.store[user]].queue| < g.conns[g.store[user]].capacity then
              var h := g.store[user];
              var c := g.conns[h];
              var unlists := oracle(4).Works? && list[1..] == [];
              Alone(g, i, oracle, if unlists then 6 else 5) ==
              At(g, i, Done).(waiting := g.waiting[user := list[1..]], totalPending := g.totalPending + 1,
                              conns := g.conns[h := c.(queue := c.queue + [list[0]])],
                              waitSet := if unlists then g.waitSet - {user} else g.waitSet)
            else
              var n := if user in g.store then 4 else 3;
              var g' := Alone(g, i, oracle, n);
              if oracle(n - 1).Works? then g' == At(g, i, Done).(waiting := g.waiting[user := list[1..] + [list[0]]])
              else g' == At(g, i, Done).(waiting := g.waiting[user := list[1..]], records := g'.records)
                   && g'.records.table == g.records.table
  {
    hide Refs, Step, Become, Alone, At, Reached;
    var list := Get(g.waiting, user);
    StoreRefers(g, user);
    if !oracle(0).Works? || list == [] {
      PopsNothing(g, i, oracle, user);
    } else if user !in g.store {
      RetryReturns(g, i, oracle, user);
    } else if !g.conns[g.store[user]].sendOpen {
      RetryPanics(g, i, oracle, user);
    } else if |g.conns[g.store[user]].queue| < g.conns[g.store[user]].capacity {
      RetryQueues(g, i, oracle, user, g.store[user]);
    } else {
      RetryReturns(g, i, oracle, user);
    }
  }

  lemma RetryPanics(g: Gateway, i: nat, oracle: nat -> Choice, user: int64)
    requires Refs(g) && !g.crashed && i < |g.ops| && g.ops[i] == Popping(user) && oracle(0).Works? && Get(g.waiting, user) != []
    requires user in g.store && g.store[user] < |g.conns| && !g.conns[g.store[user]].sendOpen
    ensures Alone(g, i, oracle, 3).crashed
  {
    hide Refs, Step, Become, Alone;
    var list := Get(g.waiting, user);
    Pops(g, i, oracle, user);
    Sends(g, i, oracle, 2, g.(waiting := g.waiting[user := list[1..]]), user, list[0], g.store[user], FromRetry);
  }

  lemma PopsNothing(g: Gateway, i: nat, oracle: nat -> Choice, user: int64)
    requires Refs(g) && !g.crashed && i < |g.ops| && g.ops[i] == Popping(user)
    requires !oracle(0).Works? || Get(g.waiting, user) == []
    ensures var list := Get(g.waiting, user);
            if oracle(0).Fails? || list == [] then Alone(g, i, oracle, 1) == At(g, i, Done)
            else
              var g' := Alone(g, i, oracle, 1);
              && g' == At(g, i, Done).(waiting := g.waiting[user := list[1..]], records := g'.records)
              && g'.records.table == g.records.table
  {
    hide Refs, Step, Become, Alone;
    Starts(g, i, oracle);
    OneMore(g, i, oracle, 0, g);
    PopStep(g, i, oracle(0));
    Moves(g, i, Done, Done);
    var list := Get(g.waiting, user);
    if list != [] {
      Moves(g.(waiting := g.waiting[user := list[1..]]), i, Done, Done);
    }
  }

  // ---------- A connect and a removal ----------

  /** The drain loop takes everything out of the channel, in order. */
  lemma {:induction false} Drains(g: Gateway, i: nat, oracle: nat -> Choice, n: nat, b: Gateway, user: int64, h: nat,
                                  why: Why, k: nat)
    requires Refs(g) && i < |b.ops| && !b.crashed && h < |b.conns| && k <= |b.conns[h].queue|
    requires Reached(g, i, oracle, n, At(b, i, Leaving(user, h, [], why, Draining)))
    ensures Reached(g, i, oracle, n + k, At(b.(conns := b.conns[h := b.conns[h].(queue := b.conns[h].queue[k..])]), i,
                                            Leaving(user, h, b.conns[h].queue[..k], why, Draining)))
  {
    hide Refs, Step, Reached, Become;
    var q := b.conns[h].queue;
    if k == 0 {
      assert b.conns[h := b.conns[h].(queue := q[0..])] == b.conns;
      assert q[..0] == [];
    } else {
      Drains(g, i, oracle, n, b, user, h, why, k - 1);
      var b1 := b.(conns := b.conns[h := b.conns[h].(queue := q[k - 1..])]);
      var op := Leaving(user, h, q[..k - 1], why, Draining);
      OneMore(g, i, oracle, n + k - 1, At(b1, i, op));
      LeaveStep(At(b1, i, op), i, oracle(n + k - 1), user, h, q[..k - 1], why, Draining);
      var b2 := b.(conns := b.conns[h := b.conns[h].(queue := q[k..])]);
      assert q[k - 1..][1..] == q[k..] && q[..k - 1] + [q[k - 1]] == q[..k];
      assert b1.conns[h := b.conns[h].(queue := q[k..])] == b2.conns;
      Moves(b2, i, op, Leaving(user, h, q[..k], why, Draining));
    }
  }

  /** The holder as a connect or removal leaves it. */
  function Emptied(c: Conn): Conn {
    c.(queue := [], sendOpen := false, closeOpen := false, leavers := c.leavers + 1)
  }

  lemma Loads(g: Gateway, i: nat, oracle: nat -> Choice, user: int64, why: Why)
    requires Refs(g) && !g.crashed && i < |g.ops| && g.ops[i] == Arriving(user, why) && user in g.store
    ensures g.store[user] < |g.conns|
    ensures var h := g.store[user];
            var c := g.conns[h].(leavers := g.conns[h].leavers + 1);
            Reached(g, i, oracle, 1, At(g.(conns := g.conns[h := c]), i, Leaving(user, h, [], why, Closing)))
  {
    hide Refs, Step, Reached, Become;
    StoreRefers(g, user);
    var h := g.store[user];
    var c := g.conns[h].(leavers := g.conns[h].leavers + 1);
    Starts(g, i, oracle);
    OneMore(g, i, oracle, 0, g);
    ArriveStep(g, i, oracle(0));
    var op := Leaving(user, h, [], why, Closing);
    Moves(g.(conns := g.conns[h := c]), i, op, op);
  }

  /** Up to the drain loop. */
  lemma Closes(g: Gateway, i: nat, oracle: nat -> Choice, user: int64, why: Why)
    requires Refs(g) && !g.crashed && i < |g.ops| && g.ops[i] == Arriving(user, why) && user in g.store
    ensures g.store[user] < |g.conns|
    ensures var h := g.store[user];
            var c := g.conns[h].(leavers := g.conns[h].leavers + 1);
            if c.closeOpen || why.Replacement? then
              Reached(g, i, oracle, 2, At(g.(conns := g.conns[h := c.(closeOpen := false)]), i, Leaving(user, h, [], why, Draining)))
            else Reached(g, i, oracle, 2, At(g.(conns := g.conns[h := c]), i, Leaving(user, h, [], why, HandingBack)))
  {
    hide Refs, Step, Reached, Become;
    Loads(g, i, oracle, user, why);
    var h := g.store[user];
    var c := g.conns[h].(leavers := g.conns[h].leavers + 1);
    var op, b := Leaving(user, h, [], why, Closing), g.(conns := g.conns[h := c]);
    OneMore(g, i, oracle, 1, At(b, i, op));
    LeaveStep(At(b, i, op), i, oracle(1), user, h, [], why, Closing);
    var b' := g.(conns := g.conns[h := c.(closeOpen := false)]);
    assert b.conns[h := c.(closeOpen := false)] == b'.conns;
    assert !c.closeOpen ==> b'.conns == b.conns;
    Moves(b', i, op, Leaving(user, h, [], why, Draining));
    Moves(b, i, op, Leaving(user, h, [], why, if c.closeOpen || why.Replacement? then Draining else HandingBack));
  }

  /** The rest of the drain loop, and the close of the send channel. */
  lemma DrainsAndSeals(g: Gateway, i: nat, oracle: nat -> Choice, n: nat, b: Gateway, user: int64, h: nat, why: Why)
    requires Refs(g) && i < |b.ops| && !b.crashed && h < |b.conns|
    requires Reached(g, i, oracle, n, At(b, i, Leaving(user, h, [], why, Draining)))
    ensures var q := b.conns[h].queue;
            Reached(g, i, oracle, n + |q| + 2,
                    At(b.(conns := b.conns[h := b.conns[h].(queue := [], sendOpen := false)]), i,
                       Leaving(user, h, q, why, if why.Removal? then Uncounting else Discounting)))
  {
    hide Refs, Step, Reached, Become;
    var q := b.conns[h].queue;
    DrainsAll(g, i, oracle, n, b, user, h, why);
    var b1 := b.(conns := b.conns[h := b.conns[h].(queue := [])]);
    var op := Leaving(user, h, q, why, Sealing);
    OneMore(g, i, oracle, n + |q| + 1, At(b1, i, op));
    LeaveStep(At(b1, i, op), i, oracle(n + |q| + 1), user, h, q, why, Sealing);
    var b2 := b.(conns := b.conns[h := b.conns[h].(queue := [], sendOpen := false)]);
    assert b1.conns[h := b1.conns[h].(sendOpen := false)] == b2.conns;
    Moves(b2, i, op, Leaving(user, h, q, why, if why.Removal? then Uncounting else Discounting));
  }

  lemma DrainsAll(g: Gateway, i: nat, oracle: nat -> Choice, n: nat, b: Gateway, user: int64, h: nat, why: Why)
    requires Refs(g) && i < |b.ops| && !b.crashed && h < |b.conns|
    requires Reached(g, i, oracle, n, At(b, i, Leaving(user, h, [], why, Draining)))
    ensures var q := b.conns[h].queue;
            Reached(g, i, oracle, n + |q| + 1,
                    At(b.(conns := b.conns[h := b.conns[h].(queue := [])]), i, Leaving(user, h, q, why, Sealing)))
  {
    hide Refs, Step, Reached, Become;
    var q := b.conns[h].queue;
    Drains(g, i, oracle, n, b, user, h, why, |q|);
    assert q[|q|..] == [] && q[..|q|] == q;
    var b1 := b.(conns := b.conns[h := b.conns[h].(queue := [])]);
    var op := Leaving(user, h, q, why, Draining);
    OneMore(g, i, oracle, n + |q|, At(b1, i, op));
    LeaveStep(At(b1, i, op), i, oracle(n + |q|), user, h, q, why, Draining);
    Moves(b1, i, op, Leaving(user, h, q, why, Sealing));
  }

  /** Uncounts and forgets the replaced holder. */
  lemma Replaces(g: Gateway, i: nat, oracle: nat -> Choice, n: nat, b: Gateway, user: int64, h: nat, hand: seq<Request>, buffer: nat)
    requires Refs(g) && i < |b.ops| && !b.crashed
    requires Reached(g, i, oracle, n, At(b, i, Leaving(user, h, hand, Replacement(buffer), Discounting)))
    ensures Reached(g, i, oracle, n + 2,
                    At(b.(connCount := b.connCount - 1, store := b.store - {user}), i, Entering(user, buffer, hand, Some(h))))
  {
    hide Refs, Step, Reached, Become;
    var why := Replacement(buffer);
    var op1, op2 := Leaving(user, h, hand, why, Discounting), Leaving(user, h, hand, why, Forgetting);
    var b1 := b.(connCount := b.connCount - 1);
    OneMore(g, i, oracle, n, At(b, i, op1));
    LeaveStep(At(b, i, op1), i, oracle(n), user, h, hand, why, Discounting);
    Moves(b1, i, op1, op2);
    OneMore(g, i, oracle, n + 1, At(b1, i, op2));
    LeaveStep(At(b1, i, op2), i, oracle(n + 1), user, h, hand, why, Forgetting);
    Moves(b1.(store := b.store - {user}), i, op2, Entering(user, buffer, hand, Some(h)));
  }

  /** Stores and counts the new holder. */
  lemma Enters(g: Gateway, i: nat, oracle: nat -> Choice, n: nat, b: Gateway, user: int64, hand: seq<Request>, buffer: nat,
               prior: Option<nat>)
    requires Refs(g) && i < |b.ops| && !b.crashed && (prior.Some? ==> prior.value < |b.conns|)
    requires Reached(g, i, oracle, n, At(b, i, Entering(user, buffer, hand, prior)))
    ensures var received := if prior.Some? then b.conns[prior.value].received else [];
            Reached(g, i, oracle, n + 2,
                    At(b.(conns := b.conns + [Conn(user, hand, buffer + |hand|, true, true, Selecting, received, 0)],
                          store := b.store[user := |b.conns|], connCount := b.connCount + 1), i, Done))
  {
    hide Refs, Step, Reached, Become;
    var received := if prior.Some? then b.conns[prior.value].received else [];
    var op := Entering(user, buffer, hand, prior);
    OneMore(g, i, oracle, n, At(b, i, op));
    EnterStep(At(b, i, op), i, oracle(n), user, buffer, hand, prior);
    var b1 := b.(conns := b.conns + [Conn(user, hand, buffer + |hand|, true, true, Selecting, received, 0)],
                 store := b.store[user := |b.conns|]);
    Moves(b1, i, op, Admitting(user));
    OneMore(g, i, oracle, n + 1, At(b1, i, Admitting(user)));
    ListStep(At(b1, i, Admitting(user)), i, oracle(n + 1));
    Moves(b1.(connCount := b.connCount + 1), i, Admitting(user), Done);
  }

  /** A connect: the user gets a new open holder that has room for the buffer and for everything
      the old channel held, and holds that in the same order; the old holder is closed and empty;
      pending requests and counters stay, and the connection count grows only for a new user. */
  lemma ConnectedExactly(g: Gateway, i: nat, oracle: nat -> Choice, user: int64, buffer: nat)
    requires Refs(g) && !g.crashed && i < |g.ops| && g.ops[i] == Arriving(user, Replacement(buffer))
    ensures user in g.store ==> g.store[user] < |g.conns|
    ensures if user !in g.store then
              Alone(g, i, oracle, 3) ==
              At(g, i, Done).(conns := g.conns + [Conn(user, [], buffer, true, true, Selecting, [], 0)],
                              store := g.store[user := |g.conns|], connCount := g.connCount + 1)
            else
              var c := g.conns[g.store[user]];
              Alone(g, i, oracle, |c.queue| + 8) ==
              At(g, i, Done).(conns := g.conns[g.store[user] := Emptied(c)]
                                       + [Conn(user, c.queue, buffer + |c.queue|, true, true, Selecting, c.received, 0)],
                              store := g.store[user := |g.conns|])
  {
    hide Refs, Step, Become, Alone;
    StoreRefers(g, user);
    if user in g.store {
      Reconnects(g, i, oracle, user, buffer);
    } else {
      Starts(g, i, oracle);
      OneMore(g, i, oracle, 0, g);
      ArriveStep(g, i, oracle(0));
      var op := Entering(user, buffer, [], None);
      Moves(g, i, op, op);
      Enters(g, i, oracle, 1, g, user, [], buffer, None);
    }
  }

  lemma LeavesOld(g: Gateway, i: nat, oracle: nat -> Choice, user: int64, buffer: nat)
    requires Refs(g) && !g.crashed && i < |g.ops| && g.ops[i] == Arriving(user, Replacement(buffer))
    requires user in g.store && g.store[user] < |g.conns|
    ensures var h := g.store[user];
            var c := g.conns[h];
            Reached(g, i, oracle, |c.queue| + 4,
                    At(g.(conns := g.conns[h := Emptied(c)]), i, Leaving(user, h, c.queue, Replacement(buffer), Discounting)))
  {
    hide Refs, Step, Become, Alone, Reached;
    var h, why := g.store[user], Replacement(buffer);
    var c := g.conns[h];
    Closes(g, i, oracle, user, why);
    var b := g.(conns := g.conns[h := c.(leavers := c.leavers + 1, closeOpen := false)]);
    DrainsAndSeals(g, i, oracle, 2, b, user, h, why);
    assert b.conns[h := Emptied(c)] == g.conns[h := Emptied(c)];
  }

  lemma Reconnects(g: Gateway, i: nat, oracle: nat -> Choice, user: int64, buffer: nat)
    requires Refs(g) && !g.crashed && i < |g.ops| && g.ops[i] == Arriving(user, Replacement(buffer))
    requires user in g.store && g.store[user] < |g.conns|
    ensures var c := g.conns[g.store[user]];
            Alone(g, i, oracle, |c.queue| + 8) ==
            At(g, i, Done).(conns := g.conns[g.store[user] := Emptied(c)]
                                     + [Conn(user, c.queue, buffer + |c.queue|, true, true, Selecting, c.received, 0)],
                            store := g.store[user := |g.conns|])
  {
    hide Refs, Step, Become, Alone;
    var h, c := g.store[user], g.conns[g.store[user]];
    LeavesOld(g, i, oracle, user, buffer);
    var b1 := g.(conns := g.conns[h := Emptied(c)]);
    Replaces(g, i, oracle, |c.queue| + 4, b1, user, h, c.queue, buffer);
    var b2 := b1.(connCount := g.connCount - 1, store := g.store - {user});
    Enters(g, i, oracle, |c.queue| + 6, b2, user, c.queue, buffer, Some(h));
    assert b2.store[user := |g.conns|] == g.store[user := |g.conns|];
  }

  // ---------- A removal ----------

  /** The counters after drained messages have been offered back, from the n-th answer on. */
  function Accepted(t: P.Table, hand: seq<Request>, oracle: nat -> Choice, n: nat): P.Table {
    if hand == [] then t
    else
      var k := |hand| - 1;
      var before := Accepted(t, hand[..k], oracle, n);
      if hand[k].Push? && oracle(n + k).Works? then before.Report(hand[k].msg.id, false, 1) else before
  }

  function Offered(records: Records, user: int64, hand: seq<Request>, oracle: nat -> Choice, n: nat): Records {
    if hand == [] then records
    else
      var k := |hand| - 1;
      Fate(Offered(records, user, hand[..k], oracle, n), user, hand[k], oracle(n + k).Works?)
  }

  lemma {:induction false} OfferedReports(records: Records, user: int64, hand: seq<Request>, oracle: nat -> Choice, n: nat)
    ensures Offered(records, user, hand, oracle, n).table == Accepted(records.table, hand, oracle, n)
  {
    hide P.Table.Report;
    if hand != [] { OfferedReports(records, user, hand[..|hand| - 1], oracle, n); }
  }

  /** Operation `i` still has to offer back the rest of `hand`. */
  function Offering(b: Gateway, i: nat, oracle: nat -> Choice, n: nat, user: int64, h: nat, hand: seq<Request>, k: nat): Gateway
    requires i < |b.ops| && k <= |hand|
  {
    At(b.(records := Offered(b.records, user, hand[..k], oracle, n)), i, Leaving(user, h, hand[k..], Removal, HandingBack))
  }

  lemma OffersOne(g: Gateway, i: nat, oracle: nat -> Choice, n: nat, b: Gateway, user: int64, h: nat, hand: seq<Request>, k: nat)
    requires Refs(g) && i < |b.ops| && !b.crashed && k < |hand|
    requires Reached(g, i, oracle, n + k, Offering(b, i, oracle, n, user, h, hand, k))
    ensures Reached(g, i, oracle, n + (k + 1), Offering(b, i, oracle, n, user, h, hand, k + 1))
  {
    hide Refs, Reached, Fate;
    HandsOne(g, i, oracle, n + k, b.(records := Offered(b.records, user, hand[..k], oracle, n)), user, h, hand[k..]);
    assert hand[k..][1..] == hand[k + 1..] && hand[..k + 1][..k] == hand[..k];
  }

  lemma {:induction false} HandsBack(g: Gateway, i: nat, oracle: nat -> Choice, n: nat, b: Gateway, user: int64, h: nat,
                                     hand: seq<Request>, k: nat)
    requires Refs(g) && i < |b.ops| && !b.crashed && k <= |hand|
    requires Reached(g, i, oracle, n, At(b, i, Leaving(user, h, hand, Removal, HandingBack)))
    ensures Reached(g, i, oracle, n + k, Offering(b, i, oracle, n, user, h, hand, k))
  {
    hide Refs, Reached;
    if k == 0 {
      assert hand[..0] == [] && hand[0..] == hand;
    } else {
      hide Offering;
      HandsBack(g, i, oracle, n, b, user, h, hand, k - 1);
      OffersOne(g, i, oracle, n, b, user, h, hand, k - 1);
    }
  }

  lemma HandsOne(g: Gateway, i: nat, oracle: nat -> Choice, n: nat, b: Gateway, user: int64, h: nat, hand: seq<Request>)
    requires Refs(g) && i < |b.ops| && !b.crashed && hand != []
    requires Reached(g, i, oracle, n, At(b, i, Leaving(user, h, hand, Removal, HandingBack)))
    ensures Reached(g, i, oracle, n + 1, At(b.(records := Fate(b.records, user, hand[0], oracle(n).Works?)), i,
                                            Leaving(user, h, hand[1..], Removal, HandingBack)))
  {
    hide Refs, Step, Reached, Become, Fate;
    var op := Leaving(user, h, hand, Removal, HandingBack);
    OneMore(g, i, oracle, n, At(b, i, op));
    LeaveStep(At(b, i, op), i, oracle(n), user, h, hand, Removal, HandingBack);
    Moves(b, i, op, Leaving(user, h, hand[1..], Removal, HandingBack));
  }

  /** From the hand-back on. */
  lemma Departs(g: Gateway, i: nat, oracle: nat -> Choice, n: nat, b: Gateway, user: int64, h: nat, hand: seq<Request>)
    requires Refs(g) && i < |b.ops| && !b.crashed
    requires Reached(g, i, oracle, n, At(b, i, Leaving(user, h, hand, Removal, HandingBack)))
    ensures Reached(g, i, oracle, n + |hand| + 3,
                    At(b.(records := Offered(b.records, user, hand, oracle, n), store := b.store - {user},
                          connCount := b.connCount - 1), i, Done))
  {
    hide Refs, Step, Reached, Become, Offered;
    HandsBack(g, i, oracle, n, b, user, h, hand, |hand|);
    assert hand[..|hand|] == hand && hand[|hand|..] == [];
    var m, b1 := n + |hand|, b.(records := Offered(b.records, user, hand, oracle, n));
    Forgets(g, i, oracle, m, b1, user, h);
  }

  lemma Forgets(g: Gateway, i: nat, oracle: nat -> Choice, n: nat, b: Gateway, user: int64, h: nat)
    requires Refs(g) && i < |b.ops| && !b.crashed
    requires Reached(g, i, oracle, n, At(b, i, Leaving(user, h, [], Removal, HandingBack)))
    ensures Reached(g, i, oracle, n + 3, At(b.(store := b.store - {user}, connCount := b.connCount - 1), i, Done))
  {
    hide Refs, Step, Reached, Become;
    EndsHandBack(g, i, oracle, n, b, user, h);
    var op := Leaving(user, h, [], Removal, Forgetting);
    OneMore(g, i, oracle, n + 1, At(b, i, op));
    LeaveStep(At(b, i, op), i, oracle(n + 1), user, h, [], Removal, Forgetting);
    var b1 := b.(store := b.store - {user});
    Moves(b1, i, op, Leaving(user, h, [], Removal, Discounting));
    Discounts(g, i, oracle, n + 2, b1, user, h);
  }

  lemma Discounts(g: Gateway, i: nat, oracle: nat -> Choice, n: nat, b: Gateway, user: int64, h: nat)
    requires Refs(g) && i < |b.ops| && !b.crashed
    requires Reached(g, i, oracle, n, At(b, i, Leaving(user, h, [], Removal, Discounting)))
    ensures Reached(g, i, oracle, n + 1, At(b.(connCount := b.connCount - 1), i, Done))
  {
    hide Refs, Step, Reached, Become;
    var op := Leaving(user, h, [], Removal, Discounting);
    OneMore(g, i, oracle, n, At(b, i, op));
    LeaveStep(At(b, i, op), i, oracle(n), user, h, [], Removal, Discounting);
    Moves(b.(connCount := b.connCount - 1), i, op, Done);
  }

  lemma EndsHandBack(g: Gateway, i: nat, oracle: nat -> Choice, n: nat, b: Gateway, user: int64, h: nat)
    requires Refs(g) && i < |b.ops| && !b.crashed
    requires Reached(g, i, oracle, n, At(b, i, Leaving(user, h, [], Removal, HandingBack)))
    ensures Reached(g, i, oracle, n + 1, At(b, i, Leaving(user, h, [], Removal, Forgetting)))
  {
    hide Refs, Step, Reached, Become;
    var op := Leaving(user, h, [], Removal, HandingBack);
    OneMore(g, i, oracle, n, At(b, i, op));
    LeaveStep(At(b, i, op), i, oracle(n), user, h, [], Removal, HandingBack);
    Moves(b, i, op, Leaving(user, h, [], Removal, Forgetting));
  }

  lemma Uncounts(g: Gateway, i: nat, oracle: nat -> Choice, n: nat, b: Gateway, user: int64, h: nat, hand: seq<Request>)
    requires Refs(g) && i < |b.ops| && !b.crashed
    requires Reached(g, i, oracle, n, At(b, i, Leaving(user, h, hand, Removal, Uncounting)))
    ensures Reached(g, i, oracle, n + 1,
                    At(b.(totalPending := b.totalPending - |hand|), i, Leaving(user, h, hand, Removal, HandingBack)))
  {
    hide Refs, Step, Reached, Become;
    var op := Leaving(user, h, hand, Removal, Uncounting);
    OneMore(g, i, oracle, n, At(b, i, op));
    LeaveStep(At(b, i, op), i, oracle(n), user, h, hand, Removal, Uncounting);
    Moves(b.(totalPending := b.totalPending - |hand|), i, op, Leaving(user, h, hand, Removal, HandingBack));
  }

  /** A removal: the user is not connected any more, the holder is closed and empty, its requests
      are not counted as pending, and each message among them is offered back in order and
      reported done if it is accepted. If the holder was closed already, none of its requests is
      touched. */
  lemma RemovedExactly(g: Gateway, i: nat, oracle: nat -> Choice, user: int64)
    requires Refs(g) && !g.crashed && i < |g.ops| && g.ops[i] == Arriving(user, Removal)
    ensures user in g.store ==> g.store[user] < |g.conns|
    ensures if user !in g.store then Alone(g, i, oracle, 1) == At(g, i, Done)
            else
              var h := g.store[user];
              var c := g.conns[h];
              if c.closeOpen then
                var g' := Alone(g, i, oracle, 2 * |c.queue| + 8);
                && g' == At(g, i, Done).(conns := g.conns[h := Emptied(c)], store := g.store - {user},
                                         connCount := g.connCount - 1, totalPending := g.totalPending - |c.queue|,
                                         records := g'.records)
                && g'.records.table == Accepted(g.records.table, c.queue, oracle, |c.queue| + 5)
              else Alone(g, i, oracle, 5) ==
                   At(g, i, Done).(conns := g.conns[h := c.(leavers := c.leavers + 1)], store := g.store - {user},
                                   connCount := g.connCount - 1)
  {
    hide Refs, Step, Become, Alone;
    StoreRefers(g, user);
    if user !in g.store {
      Starts(g, i, oracle);
      OneMore(g, i, oracle, 0, g);
      ArriveStep(g, i, oracle(0));
      Moves(g, i, Done, Done);
    } else if g.conns[g.store[user]].closeOpen {
      Removes(g, i, oracle, user);
    } else {
      Closes(g, i, oracle, user, Removal);
      var h := g.store[user];
      Forgets(g, i, oracle, 2, g.(conns := g.conns[h := g.conns[h].(leavers := g.conns[h].leavers + 1)]), user, h);
    }
  }

  lemma DrainsRemoved(g: Gateway, i: nat, oracle: nat -> Choice, user: int64)
    requires Refs(g) && !g.crashed && i < |g.ops| && g.ops[i] == Arriving(user, Removal)
    requires user in g.store && g.store[user] < |g.conns| && g.conns[g.store[user]].closeOpen
    ensures var h := g.store[user];
            var c := g.conns[h];
            Reached(g, i, oracle, |c.queue| + 4,
                    At(g.(conns := g.conns[h := Emptied(c)]), i, Leaving(user, h, c.queue, Removal, Uncounting)))
  {
    hide Refs, Step, Become, Alone, Reached;
    var h := g.store[user];
    var c := g.conns[h];
    Closes(g, i, oracle, user, Removal);
    var b := g.(conns := g.conns[h := c.(leavers := c.leavers + 1, closeOpen := false)]);
    DrainsAndSeals(g, i, oracle, 2, b, user, h, Removal);
    assert b.conns[h := Emptied(c)] == g.conns[h := Emptied(c)];
  }

  lemma Removes(g: Gateway, i: nat, oracle: nat -> Choice, user: int64)
    requires Refs(g) && !g.crashed && i < |g.ops| && g.ops[i] == Arriving(user, Removal)
    requires user in g.store && g.store[user] < |g.conns| && g.conns[g.store[user]].closeOpen
    ensures var h := g.store[user];
            var c := g.conns[h];
            var g' := Alone(g, i, oracle, 2 * |c.queue| + 8);
            && g' == At(g, i, Done).(conns := g.conns[h := Emptied(c)], store := g.store - {user},
                                     connCount := g.connCount - 1, totalPending := g.totalPending - |c.queue|,
                                     records := g'.records)
            && g'.records.table == Accepted(g.records.table, c.queue, oracle, |c.queue| + 5)
  {
    hide Refs, Step, Become, Alone, Offered, Accepted;
    var h := g.store[user];
    var c := g.conns[h];
    DrainsRemoved(g, i, oracle, user);
    var b := g.(conns := g.conns[h := Emptied(c)]);
    Uncounts(g, i, oracle, |c.queue| + 4, b, user, h, c.queue);
    var b1 := b.(totalPending := g.totalPending - |c.queue|);
    Departs(g, i, oracle, |c.queue| + 5, b1, user, h, c.queue);
    OfferedReports(g.records, user, c.queue, oracle, |c.queue| + 5);
  }
}
