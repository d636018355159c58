/** Fan-out of one message from the send service (internal/send/push/dispatcher_gateway.go).

    Redis, the network and the channel timeout are oracles: every choice of failures is
    allowed. What the code does to the outside world is recorded in a log of events. */
module SendDispatch {
  import opened GoInt
  import opened Messages

  const BATCH_SIZE: nat := 100

  /** `StreamAdd` is a successful XADD to a gateway's stream, `Offline` a copy pushed to a
      user's offline list, `Parked` one that could not be pushed and went to an in-process
      channel that nothing reads. `Opened` and `Reported` are the calls made on the pending
      manager. */
  datatype Event =
    | Opened(id: int64, count: int32)
    | StreamAdd(gateway: string, msg: PushMessage)
    | Offline(user: int64, body: ClientMessage)
    | Parked(user: int64, body: ClientMessage)
    | Reported(id: int64, fails: bool, n: int32)

  // ---------- Accounting over a log ----------

  /** What a log has reported done, reported failed, handed over, and of that only parked. */
  datatype Account = Account(done: int, failed: int, handed: multiset<int64>, parked: multiset<int64>) {
    function Plus(other: Account): Account {
      Account(done + other.done, failed + other.failed, handed + other.handed, parked + other.parked)
    }

    /** Handed to a gateway's stream or an offline list. */
    function Queued(): multiset<int64> {
      handed - parked
    }
  }

  const NOTHING: Account := Account(0, 0, multiset{}, multiset{})

  function AccountOf(e: Event): Account {
    match e
    case Opened(_, _) => NOTHING
    case StreamAdd(_, msg) => Account(0, 0, multiset(msg.targets), multiset{})
    case Offline(user, _) => Account(0, 0, multiset{user}, multiset{})
    case Parked(user, _) => Account(0, 0, multiset{user}, multiset{user})
    case Reported(_, fails, n) => if fails then Account(0, n, multiset{}, multiset{}) else Account(n, 0, multiset{}, multiset{})
  }

  function Balance(log: seq<Event>): Account {
    if log == [] then NOTHING else Balance(log[..|log| - 1]).Plus(AccountOf(log[|log| - 1]))
  }

  /** At no point of the log is more reported done than has been handed over. */
  predicate NeverAhead(log: seq<Event>) {
    log == [] || (NeverAhead(log[..|log| - 1]) && Balance(log).done <= |Balance(log).handed|)
  }

  lemma Appended(log: seq<Event>, e: Event)
    ensures Balance(log + [e]) == Balance(log).Plus(AccountOf(e))
    ensures NeverAhead(log + [e]) <==> NeverAhead(log) && Balance(log + [e]).done <= |Balance(log + [e]).handed|
  {
    assert (log + [e])[..|log|] == log;
  }

  // ---------- Batches ----------

  function Head(targets: seq<int64>): (n: nat)
    ensures n <= |targets| && n <= BATCH_SIZE && (targets != [] ==> n > 0)
  {
    if |targets| < BATCH_SIZE then |targets| else BATCH_SIZE
  }

  /** The batches that got into the channel; `admit(k)` tells whether the k-th one did. */
  function Admitted(targets: seq<int64>, admit: nat -> bool, k: nat): seq<seq<int64>>
    decreases |targets|
  {
    if targets == [] then []
    else (if admit(k) then [targets[..Head(targets)]] else []) + Admitted(targets[Head(targets)..], admit, k + 1)
  }

  function DroppedCount(targets: seq<int64>, admit: nat -> bool, k: nat): nat
    decreases |targets|
  {
    if targets == [] then 0
    else (if admit(k) then 0 else Head(targets)) + DroppedCount(targets[Head(targets)..], admit, k + 1)
  }

  function BatchMessages(body: ClientMessage, batches: seq<seq<int64>>): seq<PushMessage> {
    seq(|batches|, i requires 0 <= i < |batches| => PushMessage(body, batches[i]))
  }

  function Flatten(batches: seq<seq<int64>>): multiset<int64> {
    if batches == [] then multiset{} else Flatten(batches[..|batches| - 1]) + multiset(batches[|batches| - 1])
  }

  lemma {:induction false} FlattenFront(first: seq<int64>, rest: seq<seq<int64>>)
    ensures Flatten([first] + rest) == multiset(first) + Flatten(rest)
  {
    if rest == [] {
      assert ([first] + rest)[..0] == [];
    } else {
      assert ([first] + rest)[..|rest|] == [first] + rest[..|rest| - 1];
      FlattenFront(first, rest[..|rest| - 1]);
    }
  }

  lemma OneBatchMore(first: seq<int64>, rest: seq<int64>, later: seq<seq<int64>>, dropped: nat, admitted: bool)
    requires Flatten(later) <= multiset(rest) && |Flatten(later)| + dropped == |rest|
    ensures var all := (if admitted then [first] else []) + later;
            Flatten(all) <= multiset(first + rest)
            && |Flatten(all)| + dropped + (if admitted then 0 else |first|) == |first + rest|
  {
    hide Flatten;
    if admitted {
      FlattenFront(first, later);
    } else {
      assert [] + later == later;
    }
  }

  /** Cutting into batches loses and repeats nothing: every target position is in exactly
      one admitted batch or counted as dropped, and no batch is empty or over 100 long. */
  lemma {:induction false} BatchesPartition(targets: seq<int64>, admit: nat -> bool, k: nat)
    ensures Flatten(Admitted(targets, admit, k)) <= multiset(targets)
    ensures |Flatten(Admitted(targets, admit, k))| + DroppedCount(targets, admit, k) == |targets|
    ensures forall b | b in Admitted(targets, admit, k) :: 0 < |b| <= 100
    decreases |targets|
  {
    if targets != [] {
      hide Flatten;
      var n := Head(targets);
      BatchesPartition(targets[n..], admit, k + 1);
      assert targets == targets[..n] + targets[n..];
      OneBatchMore(targets[..n], targets[n..], Admitted(targets[n..], admit, k + 1), DroppedCount(targets[n..], admit, k + 1), admit(k));
    }
  }

  /** The targets of the k-th batch. */
  function Slice(targets: seq<int64>, k: nat): (batch: seq<int64>)
    requires k * BATCH_SIZE < |targets|
  {
    targets[k * BATCH_SIZE..if |targets| < (k + 1) * BATCH_SIZE then |targets| else (k + 1) * BATCH_SIZE]
  }

  /** Of the first `count` batches, those that got in. */
  function AdmittedSlices(targets: seq<int64>, admit: nat -> bool, count: nat): seq<seq<int64>>
    requires count == 0 || (count - 1) * BATCH_SIZE < |targets|
  {
    if count == 0 then []
    else AdmittedSlices(targets, admit, count - 1) + if admit(count - 1) then [Slice(targets, count - 1)] else []
  }

  function DroppedSizes(targets: seq<int64>, admit: nat -> bool, count: nat): nat
    requires count == 0 || (count - 1) * BATCH_SIZE < |targets|
  {
    if count == 0 then 0
    else DroppedSizes(targets, admit, count - 1) + if admit(count - 1) then 0 else |Slice(targets, count - 1)|
  }

  /** The k-th batch is the k-th stretch of 100 targets; it is enqueued exactly if it got into
      the channel in time, and counted as dropped otherwise. */
  lemma BatchesAreSlices(targets: seq<int64>, admit: nat -> bool)
    ensures var count := (|targets| + BATCH_SIZE - 1) / BATCH_SIZE;
            && (count == 0 || (count - 1) * BATCH_SIZE < |targets|)
            && Admitted(targets, admit, 0) == AdmittedSlices(targets, admit, count)
            && DroppedCount(targets, admit, 0) == DroppedSizes(targets, admit, count)
  {
    assert targets[0..] == targets;
    SlicesFrom(targets, admit, 0);
  }

  lemma {:induction false} SlicesFrom(targets: seq<int64>, admit: nat -> bool, k: nat)
    requires k * BATCH_SIZE <= |targets|
    ensures var count := (|targets| + BATCH_SIZE - 1) / BATCH_SIZE;
            && k <= count && (count == 0 || (count - 1) * BATCH_SIZE < |targets|)
            && AdmittedSlices(targets, admit, count) == AdmittedSlices(targets, admit, k) + Admitted(targets[k * BATCH_SIZE..], admit, k)
            && DroppedSizes(targets, admit, count) == DroppedSizes(targets, admit, k) + DroppedCount(targets[k * BATCH_SIZE..], admit, k)
    decreases |targets| - k * BATCH_SIZE
  {
    var rest := targets[k * BATCH_SIZE..];
    if rest == [] {
      assert AdmittedSlices(targets, admit, k) + [] == AdmittedSlices(targets, admit, k);
    } else if |rest| <= BATCH_SIZE {
      LastSlice(targets, admit, k);
    } else {
      SlicesFrom(targets, admit, k + 1);
      assert rest[..BATCH_SIZE] == Slice(targets, k);
      assert rest[BATCH_SIZE..] == targets[(k + 1) * BATCH_SIZE..];
      var more := Admitted(targets[(k + 1) * BATCH_SIZE..], admit, k + 1);
      var one := if admit(k) then [Slice(targets, k)] else [];
      assert AdmittedSlices(targets, admit, k) + one + more == AdmittedSlices(targets, admit, k) + (one + more);
    }
  }

  lemma LastSlice(targets: seq<int64>, admit: nat -> bool, k: nat)
    requires k * BATCH_SIZE < |targets| <= (k + 1) * BATCH_SIZE
    ensures (|targets| + BATCH_SIZE - 1) / BATCH_SIZE == k + 1
    ensures var rest := targets[k * BATCH_SIZE..];
            && AdmittedSlices(targets, admit, k + 1) == AdmittedSlices(targets, admit, k) + Admitted(rest, admit, k)
            && DroppedSizes(targets, admit, k + 1) == DroppedSizes(targets, admit, k) + DroppedCount(rest, admit, k)
  {
    var rest := targets[k * BATCH_SIZE..];
    assert rest[..|rest|] == rest == Slice(targets, k);
    assert rest[|rest|..] == [];
    var one := if admit(k) then [Slice(targets, k)] else [];
    assert one + [] == one;
  }

  // ---------- Routes ----------

  /** The targets, in order, whose gateway is in `gateways`. */
  function RoutedTo(targets: seq<int64>, routes: map<int64, string>, gateways: set<string>): seq<int64> {
    if targets == [] then []
    else
      var last := targets[|targets| - 1];
      RoutedTo(targets[..|targets| - 1], routes, gateways) + if last in routes && routes[last] in gateways then [last] else []
  }

  function Unrouted(targets: seq<int64>, routes: map<int64, string>): seq<int64> {
    if targets == [] then []
    else
      var last := targets[|targets| - 1];
      Unrouted(targets[..|targets| - 1], routes) + if last in routes then [] else [last]
  }

  /** Every outside failure one worker iteration can meet. `routes` is None when the batch
      lookup failed; positions are positions in the batch or in a gateway's group. */
  datatype Faults = Faults(
    routes: Lookup, marshals: nat -> bool, offlinePushes: nat -> bool, streams: string -> bool,
    groupMarshals: (string, nat) -> bool, groupPushes: (string, nat) -> bool)

  datatype Lookup = LookupFailed | Routes(found: map<int64, string>)

  /** A lookup that fails counts as one that finds nobody. */
  function RouteMap(f: Faults): (routes: map<int64, string>)
    ensures f.routes == Routes(routes) || (f.routes.LookupFailed? && routes == map[])
  {
    if f.routes.LookupFailed? then map[] else f.routes.found
  }

  /** No marshalling fails and every fallback push is accepted. */
  predicate Harmless(f: Faults, targets: seq<int64>) {
    && (forall i | 0 <= i < |targets| :: f.marshals(i))
    && (forall g | g in RouteMap(f).Values :: f.streams(g) || FallbackWorks(f, g, |targets|))
  }

  predicate FallbackWorks(f: Faults, gateway: string, size: nat) {
    forall i | 0 <= i < size :: f.groupMarshals(gateway, i) && f.groupPushes(gateway, i)
  }

  /** The unrouted targets whose offline push fails: InsertOfflineQueue parks them. */
  function ParkedIn(targets: seq<int64>, f: Faults): seq<int64> {
    if targets == [] then []
    else
      var n := |targets| - 1;
      ParkedIn(targets[..n], f)
      + if targets[n] !in RouteMap(f) && f.marshals(n) && !f.offlinePushes(n) then [targets[n]] else []
  }

  /** The copy for the last target is pushed to the user's offline list: the user has no route,
      or the gateway's stream fails, and marshalling and the push work. */
  predicate LastGoesOffline(targets: seq<int64>, f: Faults)
    requires targets != []
  {
    var n := |targets| - 1;
    if targets[n] !in RouteMap(f) then f.marshals(n) && f.offlinePushes(n)
    else
      var g := RouteMap(f)[targets[n]];
      var i := |RoutedTo(targets[..n], RouteMap(f), {g})|;
      !f.streams(g) && f.groupMarshals(g, i) && f.groupPushes(g, i)
  }

  /** The targets whose copies go to their offline lists. */
  function OfflineIn(targets: seq<int64>, f: Faults): seq<int64> {
    if targets == [] then []
    else
      var n := |targets| - 1;
      OfflineIn(targets[..n], f) + if LastGoesOffline(targets, f) then [targets[n]] else []
  }

  /** A copy leaves the process, or is parked in it. */
  predicate IsCopy(e: Event) {
    e.StreamAdd? || e.Offline? || e.Parked?
  }

  /** How often handling a batch causes such an event: a gateway whose stream works gets one
      message with exactly the targets routed to it, in order. */
  function Due(e: Event, targets: seq<int64>, body: ClientMessage, f: Faults): nat {
    match e
    case StreamAdd(g, msg) =>
      var uids := RoutedTo(targets, RouteMap(f), {g});
      if uids != [] && f.streams(g) && msg == PushMessage(body, uids) then 1 else 0
    case Offline(user, copy) => if copy == body then multiset(OfflineIn(targets, f))[user] else 0
    case Parked(user, copy) => if copy == body then multiset(ParkedIn(targets, f))[user] else 0
    case _ => 0
  }

  ghost predicate CopiesAreDue(part: seq<Event>, targets: seq<int64>, body: ClientMessage, f: Faults) {
    forall e: Event | IsCopy(e) :: multiset(part)[e] == Due(e, targets, body, f)
  }

  lemma {:induction false} EveryTargetIsRoutedOrNot(targets: seq<int64>, routes: map<int64, string>, gateways: set<string>)
    requires gateways == routes.Values
    ensures multiset(targets) == multiset(Unrouted(targets, routes)) + multiset(RoutedTo(targets, routes, gateways))
  {
    if targets != [] {
      EveryTargetIsRoutedOrNot(targets[..|targets| - 1], routes, gateways);
      assert targets == targets[..|targets| - 1] + [targets[|targets| - 1]];
    }
  }

  lemma RoutedLast(targets: seq<int64>, routes: map<int64, string>, gateways: set<string>)
    requires targets != []
    ensures var last := targets[|targets| - 1];
            multiset(RoutedTo(targets, routes, gateways)) == multiset(RoutedTo(targets[..|targets| - 1], routes, gateways))
              + if last in routes && routes[last] in gateways then multiset{last} else multiset{}
  {
  }

  lemma {:induction false} OneGatewayLess(targets: seq<int64>, routes: map<int64, string>, gateways: set<string>, g: string)
    requires g in gateways
    ensures multiset(RoutedTo(targets, routes, gateways))
            == multiset(RoutedTo(targets, routes, {g})) + multiset(RoutedTo(targets, routes, gateways - {g}))
  {
    if targets != [] {
      hide RoutedTo;
      OneGatewayLess(targets[..|targets| - 1], routes, gateways, g);
      RoutedLast(targets, routes, gateways);
      RoutedLast(targets, routes, {g});
      RoutedLast(targets, routes, gateways - {g});
    }
  }

  /** Gateways that no target is routed to make no difference. */
  lemma {:induction false} OnlyUsedGatewaysMatter(targets: seq<int64>, routes: map<int64, string>, used: set<string>)
    requires forall g | g in routes.Values :: RoutedTo(targets, routes, {g}) != [] ==> g in used
    ensures RoutedTo(targets, routes, routes.Values) == RoutedTo(targets, routes, used)
  {
    if targets != [] {
      var before, last := targets[..|targets| - 1], targets[|targets| - 1];
      forall g | g in routes.Values ensures RoutedTo(before, routes, {g}) != [] ==> g in used { }
      OnlyUsedGatewaysMatter(before, routes, used);
      if last in routes {
        assert RoutedTo(targets, routes, {routes[last]}) != [];
      }
    }
  }

  // ---------- What one piece of work leaves in the log ----------

  predicate Proper(e: Event, body: ClientMessage) {
    match e
    case Opened(_, _) => false
    case StreamAdd(_, msg) => msg.body == body && msg.targets != []
    case Offline(_, copy) => copy == body
    case Parked(_, copy) => copy == body
    case Reported(id, _, n) => id == body.id && n > 0
  }

  /** `part` deals with exactly these target positions: it reports each of them once,
      done if it was handed over and failed otherwise, and never reports ahead. */
  predicate Settles(part: seq<Event>, body: ClientMessage, positions: multiset<int64>) {
    && (forall e | e in part :: Proper(e, body))
    && NeverAhead(part)
    && Balance(part).handed <= positions
    && Balance(part).done == |Balance(part).handed|
    && Balance(part).done + Balance(part).failed == |positions|
  }

  lemma PlusAssociates(a: Account, b: Account, c: Account)
    ensures a.Plus(b).Plus(c) == a.Plus(b.Plus(c))
  {
    assert a.handed + b.handed + c.handed == a.handed + (b.handed + c.handed);
    assert a.parked + b.parked + c.parked == a.parked + (b.parked + c.parked);
  }

  lemma PlusNothing(a: Account)
    ensures a.Plus(NOTHING) == a == NOTHING.Plus(a)
  {
    assert a.handed + multiset{} == a.handed == multiset{} + a.handed;
    assert a.parked + multiset{} == a.parked == multiset{} + a.parked;
  }

  lemma EmptyBalance()
    ensures Balance([]) == NOTHING && NeverAhead([])
  {
  }

  lemma {:induction false} BalanceOfConcat(p: seq<Event>, q: seq<Event>)
    ensures Balance(p + q) == Balance(p).Plus(Balance(q))
  {
    hide Balance;
    if q == [] {
      assert p + q == p;
      EmptyBalance();
      PlusNothing(Balance(p));
    } else {
      var front, e := q[..|q| - 1], q[|q| - 1];
      BalanceOfConcat(p, front);
      Appended(front, e);
      Appended(p + front, e);
      assert front + [e] == q && (p + front) + [e] == p + q;
      PlusAssociates(Balance(p), Balance(front), AccountOf(e));
    }
  }

  lemma {:induction false} NeverAheadConcat(p: seq<Event>, q: seq<Event>)
    requires NeverAhead(p) && NeverAhead(q) && Balance(p).done <= |Balance(p).handed|
    ensures NeverAhead(p + q)
  {
    if q == [] {
      assert p + q == p;
    } else {
      var front := q[..|q| - 1];
      NeverAheadConcat(p, front);
      BalanceOfConcat(p, q);
      assert (p + q)[..|p + q| - 1] == p + front;
    }
  }

  lemma {:induction false} SettlesInSequence(p: seq<Event>, q: seq<Event>, body: ClientMessage,
                                             m: multiset<int64>, n: multiset<int64>)
    requires Settles(p, body, m) && Settles(q, body, n)
    ensures Settles(p + q, body, m + n)
    ensures Balance(p + q).failed == Balance(p).failed + Balance(q).failed
    ensures Balance(p + q).parked == Balance(p).parked + Balance(q).parked
  {
    BalanceOfConcat(p, q);
    NeverAheadConcat(p, q);
  }

  /** Copies handed over but not reported yet: `count` of the given positions, to offline
      lists or parked. */
  predicate Collects(part: seq<Event>, body: ClientMessage, count: int, positions: multiset<int64>) {
    && (forall e | e in part :: (e.Offline? || e.Parked?) && e.body == body)
    && NeverAhead(part)
    && Balance(part).done == 0 && Balance(part).failed == 0
    && Balance(part).handed <= positions
    && |Balance(part).handed| == count
  }

  lemma CollectsOneMore(part: seq<Event>, body: ClientMessage, count: int, positions: multiset<int64>, user: int64)
    requires Collects(part, body, count, positions)
    ensures Collects(part, body, count, positions + multiset{user})
    ensures Collects(part + [Offline(user, body)], body, count + 1, positions + multiset{user})
    ensures Collects(part + [Parked(user, body)], body, count + 1, positions + multiset{user})
    ensures Balance(part + [Offline(user, body)]).parked == Balance(part).parked
    ensures Balance(part + [Parked(user, body)]).parked == Balance(part).parked + multiset{user}
  {
    Appended(part, Offline(user, body));
    Appended(part, Parked(user, body));
  }

  /** The two guarded reports that end a round of offline pushes. */
  function Reports(id: int64, doneCount: int32, failCount: int32): seq<Event> {
    (if doneCount > 0 then [Reported(id, false, doneCount)] else [])
    + (if failCount > 0 then [Reported(id, true, failCount)] else [])
  }

  lemma AddReport(part: seq<Event>, body: ClientMessage, fails: bool, n: int32)
    requires (forall e | e in part :: Proper(e, body)) && NeverAhead(part) && n > 0
    requires Balance(part).done + (if fails then 0 else n) <= |Balance(part).handed|
    ensures var now := part + [Reported(body.id, fails, n)];
            && (forall e | e in now :: Proper(e, body)) && NeverAhead(now)
            && Balance(now).handed == Balance(part).handed && Balance(now).parked == Balance(part).parked
            && Balance(now).done == Balance(part).done + (if fails then 0 else n)
            && Balance(now).failed == Balance(part).failed + (if fails then n else 0)
  {
    Appended(part, Reported(body.id, fails, n));
  }

  lemma CollectedThenReported(part: seq<Event>, body: ClientMessage, doneCount: int32, failCount: int32,
                              positions: multiset<int64>)
    requires Collects(part, body, doneCount, positions) && failCount >= 0 && doneCount + failCount == |positions|
    ensures Settles(part + Reports(body.id, doneCount, failCount), body, positions)
    ensures Balance(part + Reports(body.id, doneCount, failCount)).failed == failCount
    ensures Balance(part + Reports(body.id, doneCount, failCount)).parked == Balance(part).parked
  {
    hide NeverAhead, Balance;
    var d, f := Reported(body.id, false, doneCount), Reported(body.id, true, failCount);
    assert forall e | e in part :: Proper(e, body);
    if doneCount > 0 { AddReport(part, body, false, doneCount); }
    var middle := if doneCount > 0 then part + [d] else part;
    if failCount > 0 { AddReport(middle, body, true, failCount); }
    assert part + Reports(body.id, doneCount, failCount) == if failCount > 0 then middle + [f] else middle;
  }

  lemma NothingYet(body: ClientMessage, routes: map<int64, string>)
    ensures Collects([], body, 0, multiset{}) && Balance([]).parked == multiset{}
    ensures GroupsOf(map[], [], routes)
  {
  }

  // ---------- Where a worker's copies go ----------

  /** The targets without a route whose copies go to their offline lists. */
  function OfflineAlone(targets: seq<int64>, f: Faults): seq<int64> {
    if targets == [] then []
    else
      var n := |targets| - 1;
      OfflineAlone(targets[..n], f) + if targets[n] !in RouteMap(f) && LastGoesOffline(targets, f) then [targets[n]] else []
  }

  /** The same for the targets routed to `gateways`. */
  function OfflineVia(targets: seq<int64>, f: Faults, gateways: set<string>): seq<int64> {
    if targets == [] then []
    else
      var n := |targets| - 1;
      OfflineVia(targets[..n], f, gateways)
      + if targets[n] in RouteMap(f) && RouteMap(f)[targets[n]] in gateways && LastGoesOffline(targets, f)
        then [targets[n]] else []
  }

  /** The users of a gateway's group whose fallback push works. */
  function FallbackUsers(uids: seq<int64>, gateway: string, f: Faults): seq<int64> {
    if uids == [] then []
    else
      var n := |uids| - 1;
      FallbackUsers(uids[..n], gateway, f) + if f.groupMarshals(gateway, n) && f.groupPushes(gateway, n) then [uids[n]] else []
  }

  function AloneDue(e: Event, targets: seq<int64>, body: ClientMessage, f: Faults): nat {
    if e.Offline? && e.body == body then multiset(OfflineAlone(targets, f))[e.user]
    else if e.Parked? && e.body == body then multiset(ParkedIn(targets, f))[e.user]
    else 0
  }

  function FallbackDue(e: Event, uids: seq<int64>, body: ClientMessage, gateway: string, f: Faults): nat {
    if e.Offline? && e.body == body then multiset(FallbackUsers(uids, gateway, f))[e.user] else 0
  }

  function GroupDue(e: Event, uids: seq<int64>, body: ClientMessage, gateway: string, f: Faults): nat {
    if !f.streams(gateway) then FallbackDue(e, uids, body, gateway, f)
    else if e == StreamAdd(gateway, PushMessage(body, uids)) then 1 else 0
  }

  function ViaDue(e: Event, targets: seq<int64>, body: ClientMessage, f: Faults, gateways: set<string>): nat {
    match e
    case StreamAdd(g, _) => if g in gateways then Due(e, targets, body, f) else 0
    case Offline(user, copy) => if copy == body then multiset(OfflineVia(targets, f, gateways))[user] else 0
    case _ => 0
  }

  lemma AloneGrows(e: Event, targets: seq<int64>, body: ClientMessage, f: Faults, k: nat)
    requires k < |targets| && IsCopy(e)
    ensures AloneDue(e, targets[..k + 1], body, f) == AloneDue(e, targets[..k], body, f) +
            if targets[k] !in RouteMap(f) && f.marshals(k)
               && e == (if f.offlinePushes(k) then Offline(targets[k], body) else Parked(targets[k], body)) then 1 else 0
  {
    NextPosition(targets, k);
  }

  lemma FallbackGrows(e: Event, uids: seq<int64>, body: ClientMessage, gateway: string, f: Faults, k: nat)
    requires k < |uids|
    ensures FallbackDue(e, uids[..k + 1], body, gateway, f) == FallbackDue(e, uids[..k], body, gateway, f) +
            if f.groupMarshals(gateway, k) && f.groupPushes(gateway, k) && e == Offline(uids[k], body) then 1 else 0
  {
    NextPosition(uids, k);
  }

  /** The copies in `part` are those due to the targets without a route. */
  ghost predicate AloneExactly(part: seq<Event>, targets: seq<int64>, body: ClientMessage, f: Faults) {
    forall e: Event | IsCopy(e) :: multiset(part)[e] == AloneDue(e, targets, body, f)
  }

  ghost predicate FallbackExactly(part: seq<Event>, uids: seq<int64>, body: ClientMessage, gateway: string, f: Faults) {
    forall e: Event | IsCopy(e) :: multiset(part)[e] == FallbackDue(e, uids, body, gateway, f)
  }

  ghost predicate GroupExactly(part: seq<Event>, uids: seq<int64>, body: ClientMessage, gateway: string, f: Faults) {
    forall e: Event | IsCopy(e) :: multiset(part)[e] == GroupDue(e, uids, body, gateway, f)
  }

  lemma NothingDue(body: ClientMessage, f: Faults, gateway: string)
    ensures AloneExactly([], [], body, f) && FallbackExactly([], [], body, gateway, f)
  {
  }

  lemma AloneExtends(part: seq<Event>, targets: seq<int64>, body: ClientMessage, f: Faults, k: nat)
    requires k < |targets| && AloneExactly(part, targets[..k], body, f)
    ensures var next := if f.offlinePushes(k) then Offline(targets[k], body) else Parked(targets[k], body);
            if targets[k] !in RouteMap(f) && f.marshals(k) then AloneExactly(part + [next], targets[..k + 1], body, f)
            else AloneExactly(part, targets[..k + 1], body, f)
  {
    hide AloneDue;
    forall e: Event | IsCopy(e) {
      AloneGrows(e, targets, body, f, k);
    }
  }

  lemma FallbackExtends(part: seq<Event>, uids: seq<int64>, body: ClientMessage, gateway: string, f: Faults, k: nat)
    requires k < |uids| && FallbackExactly(part, uids[..k], body, gateway, f)
    ensures if f.groupMarshals(gateway, k) && f.groupPushes(gateway, k)
            then FallbackExactly(part + [Offline(uids[k], body)], uids[..k + 1], body, gateway, f)
            else FallbackExactly(part, uids[..k + 1], body, gateway, f)
  {
    hide FallbackDue;
    forall e: Event | IsCopy(e) {
      FallbackGrows(e, uids, body, gateway, f, k);
    }
  }

  lemma ReportsAreNoCopies(part: seq<Event>, id: int64, doneCount: int32, failCount: int32)
    ensures forall e: Event | IsCopy(e) :: multiset(part + Reports(id, doneCount, failCount))[e] == multiset(part)[e]
  {
  }

  lemma {:induction false} OfflineApart(targets: seq<int64>, f: Faults)
    ensures multiset(OfflineIn(targets, f)) == multiset(OfflineAlone(targets, f)) + multiset(OfflineVia(targets, f, RouteMap(f).Values))
  {
    if targets != [] {
      hide LastGoesOffline;
      OfflineApart(targets[..|targets| - 1], f);
    }
  }

  lemma {:induction false} OfflineOneMore(targets: seq<int64>, f: Faults, gateways: set<string>, g: string)
    requires g !in gateways
    ensures multiset(OfflineVia(targets, f, gateways + {g}))
            == multiset(OfflineVia(targets, f, gateways)) + multiset(OfflineVia(targets, f, {g}))
  {
    if targets != [] {
      hide LastGoesOffline;
      OfflineOneMore(targets[..|targets| - 1], f, gateways, g);
    }
  }

  lemma {:induction false} OfflineViaUsed(targets: seq<int64>, f: Faults, used: set<string>)
    requires forall g | g in RouteMap(f).Values :: RoutedTo(targets, RouteMap(f), {g}) != [] ==> g in used
    ensures OfflineVia(targets, f, RouteMap(f).Values) == OfflineVia(targets, f, used)
  {
    if targets != [] {
      hide LastGoesOffline;
      var before, last := targets[..|targets| - 1], targets[|targets| - 1];
      forall g | g in RouteMap(f).Values ensures RoutedTo(before, RouteMap(f), {g}) != [] ==> g in used { }
      OfflineViaUsed(before, f, used);
      if last in RouteMap(f) {
        assert RoutedTo(targets, RouteMap(f), {RouteMap(f)[last]}) != [];
      }
    }
  }

  /** A gateway's share of the offline copies is what its fallback pushes. */
  lemma {:induction false} OfflineViaOne(targets: seq<int64>, f: Faults, g: string)
    ensures OfflineVia(targets, f, {g}) == if f.streams(g) then [] else FallbackUsers(RoutedTo(targets, RouteMap(f), {g}), g, f)
  {
    if targets != [] {
      var n := |targets| - 1;
      OfflineViaOne(targets[..n], f, g);
      var before := RoutedTo(targets[..n], RouteMap(f), {g});
      if targets[n] in RouteMap(f) && RouteMap(f)[targets[n]] == g {
        assert (before + [targets[n]])[..|before|] == before;
      } else {
        assert before + [] == before;
      }
    }
  }

  lemma NoGroupDue(e: Event, targets: seq<int64>, body: ClientMessage, f: Faults)
    requires IsCopy(e)
    ensures ViaDue(e, targets, body, f, {}) == 0
  {
    if e.Offline? { NothingVia(targets, f); }
  }

  lemma {:induction false} NothingVia(targets: seq<int64>, f: Faults)
    ensures OfflineVia(targets, f, {}) == []
  {
    if targets != [] { NothingVia(targets[..|targets| - 1], f); }
  }

  lemma OneGroupDue(e: Event, targets: seq<int64>, body: ClientMessage, f: Faults, done: set<string>, g: string)
    requires IsCopy(e) && g !in done && RoutedTo(targets, RouteMap(f), {g}) != []
    ensures ViaDue(e, targets, body, f, done + {g})
            == ViaDue(e, targets, body, f, done) + GroupDue(e, RoutedTo(targets, RouteMap(f), {g}), body, g, f)
  {
    hide RoutedTo, OfflineVia, FallbackUsers;
    OfflineOneMore(targets, f, done, g);
    OfflineViaOne(targets, f, g);
  }

  /** When all groups are through, all copies are where they are due. */
  lemma AllDue(e: Event, groups: map<string, seq<int64>>, targets: seq<int64>, body: ClientMessage, f: Faults)
    requires IsCopy(e) && GroupsOf(groups, targets, RouteMap(f))
    ensures AloneDue(e, targets, body, f) + ViaDue(e, targets, body, f, groups.Keys) == Due(e, targets, body, f)
  {
    hide RoutedTo, OfflineVia, OfflineAlone, OfflineIn;
    OfflineApart(targets, f);
    OfflineViaUsed(targets, f, groups.Keys);
  }

  // ---------- The worker ----------

  lemma NextPosition(targets: seq<int64>, k: nat)
    requires k < |targets|
    ensures targets[..k + 1][..k] == targets[..k]
    ensures multiset(targets[..k + 1]) == multiset(targets[..k]) + multiset{targets[k]}
  {
    assert targets[..k + 1] == targets[..k] + [targets[k]];
  }

  ghost predicate GroupsOf(groups: map<string, seq<int64>>, targets: seq<int64>, routes: map<int64, string>) {
    && (forall g :: g in groups <==> RoutedTo(targets, routes, {g}) != [])
    && (forall g | g in groups :: groups[g] == RoutedTo(targets, routes, {g}))
  }

  lemma RoutedToGrows(targets: seq<int64>, k: nat, routes: map<int64, string>, g: string)
    requires k < |targets|
    ensures RoutedTo(targets[..k + 1], routes, {g})
            == RoutedTo(targets[..k], routes, {g}) + if targets[k] in routes && routes[targets[k]] == g then [targets[k]] else []
    ensures Unrouted(targets[..k + 1], routes)
            == Unrouted(targets[..k], routes) + if targets[k] in routes then [] else [targets[k]]
  {
    NextPosition(targets, k);
  }

  lemma GroupsGrow(groups: map<string, seq<int64>>, targets: seq<int64>, k: nat, routes: map<int64, string>)
    requires k < |targets| && GroupsOf(groups, targets[..k], routes)
    ensures targets[k] !in routes ==> GroupsOf(groups, targets[..k + 1], routes)
    ensures targets[k] in routes ==>
              var gid := routes[targets[k]];
              GroupsOf(groups[gid := (if gid in groups then groups[gid] else []) + [targets[k]]], targets[..k + 1], routes)
  {
    hide RoutedTo;
    forall g ensures RoutedTo(targets[..k + 1], routes, {g})
      == RoutedTo(targets[..k], routes, {g}) + if targets[k] in routes && routes[targets[k]] == g then [targets[k]] else []
    {
      RoutedToGrows(targets, k, routes, g);
    }
  }

  /** What remains to be settled grows by one position when it has no route. */
  lemma UnroutedGrows(targets: seq<int64>, k: nat, routes: map<int64, string>)
    requires k < |targets|
    ensures targets[k] in routes ==> multiset(Unrouted(targets[..k + 1], routes)) == multiset(Unrouted(targets[..k], routes))
    ensures targets[k] !in routes ==>
              multiset(Unrouted(targets[..k + 1], routes)) == multiset(Unrouted(targets[..k], routes)) + multiset{targets[k]}
    ensures |Unrouted(targets[..k + 1], routes)| == |Unrouted(targets[..k], routes)| + if targets[k] in routes then 0 else 1
  {
    RoutedToGrows(targets, k, routes, "");
    assert Unrouted(targets[..k], routes) + [] == Unrouted(targets[..k], routes);
  }

  lemma ParkedGrows(targets: seq<int64>, f: Faults, k: nat)
    requires k < |targets|
    ensures multiset(ParkedIn(targets[..k + 1], f)) ==
            multiset(ParkedIn(targets[..k], f))
            + if targets[k] !in RouteMap(f) && f.marshals(k) && !f.offlinePushes(k) then multiset{targets[k]} else multiset{}
  {
    NextPosition(targets, k);
  }

  lemma NothingParked(targets: seq<int64>, f: Faults)
    requires targets == []
    ensures ParkedIn(targets, f) == []
  {
  }

  lemma NothingToRoute(targets: seq<int64>, routes: map<int64, string>)
    requires targets == []
    ensures Unrouted(targets, routes) == [] && GroupsOf(map[], targets, routes)
  {
  }

  lemma MarshalsOk(f: Faults, targets: seq<int64>, k: nat)
    requires k < |targets|
    ensures Harmless(f, targets) ==> f.marshals(k)
  {
  }

  lemma AloneReported(part: seq<Event>, targets: seq<int64>, body: ClientMessage, f: Faults, doneCount: int32, failCount: int32)
    requires AloneExactly(part, targets, body, f)
    ensures AloneExactly(part + Reports(body.id, doneCount, failCount), targets, body, f)
  {
    hide Reports, AloneDue;
    ReportsAreNoCopies(part, body.id, doneCount, failCount);
  }

  lemma FallbackReported(part: seq<Event>, uids: seq<int64>, body: ClientMessage, gateway: string, f: Faults,
                         doneCount: int32, failCount: int32)
    requires FallbackExactly(part, uids, body, gateway, f)
    ensures FallbackExactly(part + Reports(body.id, doneCount, failCount), uids, body, gateway, f)
  {
    hide Reports, FallbackDue;
    ReportsAreNoCopies(part, body.id, doneCount, failCount);
  }

  /** The grouping loop of gatewayWorker and its two reports. */
  method GroupTargets(msg: PushMessage, f: Faults) returns (groups: map<string, seq<int64>>, part: seq<Event>)
    requires |msg.targets| <= BATCH_SIZE
    ensures GroupsOf(groups, msg.targets, RouteMap(f))
    ensures Settles(part, msg.body, multiset(Unrouted(msg.targets, RouteMap(f))))
    ensures Balance(part).parked == multiset(ParkedIn(msg.targets, f))
    ensures Harmless(f, msg.targets) ==> Balance(part).failed == 0
    ensures AloneExactly(part, msg.targets, msg.body, f)
  {
    hide NeverAhead, Balance, Collects, GroupsOf, RoutedTo, Unrouted, Settles, Harmless, ParkedIn, AloneExactly, Reports;
    var routeMap, targets := RouteMap(f), msg.targets;
    var doneCount: int32, failCount: int32 := 0, 0;
    groups, part := map[], [];
    NothingYet(msg.body, routeMap);
    NothingToRoute(targets[..0], routeMap);
    NothingParked(targets[..0], f);
    NothingDue(msg.body, f, "");
    for k := 0 to |targets|
      invariant 0 <= doneCount && 0 <= failCount && doneCount + failCount <= k
      invariant GroupsOf(groups, targets[..k], routeMap)
      invariant Collects(part, msg.body, doneCount, multiset(Unrouted(targets[..k], routeMap)))
      invariant doneCount + failCount == |Unrouted(targets[..k], routeMap)|
      invariant Balance(part).parked == multiset(ParkedIn(targets[..k], f))
      invariant Harmless(f, targets) ==> failCount == 0
      invariant AloneExactly(part, targets[..k], msg.body, f)
    {
      AloneExtends(part, targets, msg.body, f, k);
      ParkedGrows(targets, f, k);
      MarshalsOk(f, targets, k);
      var uid := targets[k];
      UnroutedGrows(targets, k, routeMap);
      GroupsGrow(groups, targets, k, routeMap);
      CollectsOneMore(part, msg.body, doneCount, multiset(Unrouted(targets[..k], routeMap)), uid);
      if uid in routeMap {
        var gid := routeMap[uid];
        groups := groups[gid := (if gid in groups then groups[gid] else []) + [uid]];
      } else if !f.marshals(k) {
        failCount := failCount + 1;
      } else {
        part := part + [if f.offlinePushes(k) then Offline(uid, msg.body) else Parked(uid, msg.body)];
        doneCount := doneCount + 1;
      }
    }
    assert targets[..|targets|] == targets;
    CollectedThenReported(part, msg.body, doneCount, failCount, multiset(Unrouted(targets, routeMap)));
    AloneReported(part, targets, msg.body, f, doneCount, failCount);
    part := part + Reports(msg.body.id, doneCount, failCount);
  }

  /** One gateway's turn in gatewayWorker: the stream, or each user's offline queue. */
  method SendGroup(body: ClientMessage, gid: string, uids: seq<int64>, f: Faults) returns (part: seq<Event>)
    requires 0 < |uids| <= BATCH_SIZE
    ensures Settles(part, body, multiset(uids))
    ensures f.streams(gid) || FallbackWorks(f, gid, |uids|) ==> Balance(part).failed == 0
    ensures Balance(part).parked == multiset{}
    ensures GroupExactly(part, uids, body, gid, f)
  {
    if f.streams(gid) {
      part := [StreamAdd(gid, PushMessage(body, uids)), Reported(body.id, false, |uids|)];
      StreamedThenReported(body, gid, uids);
    } else {
      part := FallBack(body, gid, uids, f);
    }
  }

  method FallBack(body: ClientMessage, gid: string, uids: seq<int64>, f: Faults) returns (part: seq<Event>)
    requires 0 < |uids| <= BATCH_SIZE
    ensures Settles(part, body, multiset(uids))
    ensures FallbackWorks(f, gid, |uids|) ==> Balance(part).failed == 0
    ensures Balance(part).parked == multiset{}
    ensures FallbackExactly(part, uids, body, gid, f)
  {
    hide NeverAhead, Balance, Collects, Settles, FallbackExactly, Reports;
    var doneCount: int32, failCount: int32 := 0, 0;
    part := [];
    NothingYet(body, map[]);
    NothingDue(body, f, gid);
    for k := 0 to |uids|
      invariant 0 <= doneCount && 0 <= failCount && doneCount + failCount == k
      invariant Collects(part, body, doneCount, multiset(uids[..k]))
      invariant FallbackWorks(f, gid, |uids|) ==> failCount == 0
      invariant Balance(part).parked == multiset{}
      invariant FallbackExactly(part, uids[..k], body, gid, f)
    {
      FallbackExtends(part, uids, body, gid, f, k);
      NextPosition(uids, k);
      CollectsOneMore(part, body, doneCount, multiset(uids[..k]), uids[k]);
      if !f.groupMarshals(gid, k) || !f.groupPushes(gid, k) {
        failCount := failCount + 1;
      } else {
        part := part + [Offline(uids[k], body)];
        doneCount := doneCount + 1;
      }
    }
    assert uids[..|uids|] == uids;
    CollectedThenReported(part, body, doneCount, failCount, multiset(uids));
    FallbackReported(part, uids, body, gid, f, doneCount, failCount);
    part := part + Reports(body.id, doneCount, failCount);
  }

  lemma StreamedThenReported(body: ClientMessage, gid: string, uids: seq<int64>)
    requires 0 < |uids| <= BATCH_SIZE
    ensures var part := [StreamAdd(gid, PushMessage(body, uids)), Reported(body.id, false, |uids|)];
            Settles(part, body, multiset(uids)) && Balance(part).failed == 0 && Balance(part).parked == multiset{}
  {
    hide Balance, NeverAhead;
    var added, reported := StreamAdd(gid, PushMessage(body, uids)), Reported(body.id, false, |uids|);
    EmptyBalance();
    Appended([], added);
    Appended([added], reported);
    assert [] + [added] == [added] && [added] + [reported] == [added, reported];
  }

  lemma {:induction false} RoutedToIsShort(targets: seq<int64>, routes: map<int64, string>, gateways: set<string>)
    ensures |RoutedTo(targets, routes, gateways)| <= |targets|
  {
    if targets != [] { RoutedToIsShort(targets[..|targets| - 1], routes, gateways); }
  }

  lemma {:induction false} UnknownGatewayGetsNothing(targets: seq<int64>, routes: map<int64, string>, gateways: set<string>)
    requires forall g | g in gateways :: g !in routes.Values
    ensures RoutedTo(targets, routes, gateways) == []
  {
    if targets != [] { UnknownGatewayGetsNothing(targets[..|targets| - 1], routes, gateways); }
  }

  lemma GroupsCoverRouted(groups: map<string, seq<int64>>, targets: seq<int64>, routes: map<int64, string>)
    requires GroupsOf(groups, targets, routes)
    ensures groups.Keys <= routes.Values
    ensures multiset(Unrouted(targets, routes)) + multiset(RoutedTo(targets, routes, groups.Keys)) == multiset(targets)
  {
    forall g | g in groups ensures g in routes.Values {
      if g !in routes.Values { UnknownGatewayGetsNothing(targets, routes, {g}); }
    }
    OnlyUsedGatewaysMatter(targets, routes, groups.Keys);
    EveryTargetIsRoutedOrNot(targets, routes, routes.Values);
  }

  lemma IsGroup(groups: map<string, seq<int64>>, targets: seq<int64>, routes: map<int64, string>, g: string)
    requires GroupsOf(groups, targets, routes) && g in groups
    ensures groups[g] == RoutedTo(targets, routes, {g}) != []
  {
  }

  /** One iteration of gatewayWorker; the groups come out of a Go map in any order. */
  method ProcessBatch(msg: PushMessage, f: Faults) returns (part: seq<Event>)
    requires |msg.targets| <= BATCH_SIZE
    ensures Settles(part, msg.body, multiset(msg.targets))
    ensures Balance(part).parked == multiset(ParkedIn(msg.targets, f))
    ensures Harmless(f, msg.targets) ==> Balance(part).failed == 0
    ensures CopiesAreDue(part, msg.targets, msg.body, f)
  {
    hide NeverAhead, Balance, Settles, RoutedTo, Unrouted, ParkedIn, AloneDue, ViaDue, GroupDue, Due, GroupsOf;
    var groups;
    groups, part := GroupTargets(msg, f);
    var routes, left := RouteMap(f), groups.Keys;
    ghost var settled := multiset(Unrouted(msg.targets, routes));
    GroupsCoverRouted(groups, msg.targets, routes);
    assert groups.Keys - left == {};
    forall e: Event | IsCopy(e) { NoGroupDue(e, msg.targets, msg.body, f); }
    while left != {}
      invariant left <= groups.Keys
      invariant Settles(part, msg.body, settled)
      invariant Balance(part).parked == multiset(ParkedIn(msg.targets, f))
      invariant settled + multiset(RoutedTo(msg.targets, routes, left)) == multiset(msg.targets)
      invariant Harmless(f, msg.targets) ==> Balance(part).failed == 0
      invariant forall e: Event | IsCopy(e) ::
                  multiset(part)[e] == AloneDue(e, msg.targets, msg.body, f) + ViaDue(e, msg.targets, msg.body, f, groups.Keys - left)
      decreases left
    {
      var gid :| gid in left;
      IsGroup(groups, msg.targets, routes, gid);
      ghost var done := groups.Keys - left;
      forall e: Event | IsCopy(e) {
        OneGroupDue(e, msg.targets, msg.body, f, done, gid);
      }
      assert groups.Keys - (left - {gid}) == done + {gid};
      RoutedToIsShort(msg.targets, routes, {gid});
      var more := SendGroup(msg.body, gid, groups[gid], f);
      SettlesInSequence(part, more, msg.body, settled, multiset(groups[gid]));
      OneGatewayLess(msg.targets, routes, left, gid);
      settled := settled + multiset(groups[gid]);
      part, left := part + more, left - {gid};
    }
    UnknownGatewayGetsNothing(msg.targets, routes, {});
    assert settled == multiset(msg.targets);
    assert groups.Keys - left == groups.Keys;
    forall e: Event | IsCopy(e) { AllDue(e, groups, msg.targets, msg.body, f); }
  }

  // ---------- The dispatcher ----------

  /** What Dispatch_gateway itself does to the pending manager. */
  function DispatcherPart(msg: PushMessage, admit: nat -> bool): seq<Event> {
    var dropped := Wrap32(DroppedCount(msg.targets, admit, 0));
    [Opened(msg.body.id, Wrap32(|msg.targets|))] + if dropped > 0 then [Reported(msg.body.id, true, dropped)] else []
  }

  lemma WrapsOnce(a: int, b: int)
    ensures Wrap32(Wrap32(a) + b) == Wrap32(a + b)
  {
  }

  lemma NoBatches(body: ClientMessage, targets: seq<int64>, admit: nat -> bool)
    requires targets == []
    ensures forall k: nat :: BatchMessages(body, Admitted(targets, admit, k)) == [] && DroppedCount(targets, admit, k) == 0
    ensures Wrap32(0) == 0
  {
  }

  lemma NextBatch(body: ClientMessage, targets: seq<int64>, admit: nat -> bool, i: nat, k: nat, end: nat)
    requires i < |targets| && end == if i + BATCH_SIZE > |targets| then |targets| else i + BATCH_SIZE
    ensures DroppedCount(targets[i..], admit, k) == DroppedCount(targets[end..], admit, k + 1) + if admit(k) then 0 else end - i
    ensures BatchMessages(body, Admitted(targets[i..], admit, k))
            == (if admit(k) then [PushMessage(body, targets[i..end])] else []) + BatchMessages(body, Admitted(targets[end..], admit, k + 1))
  {
    assert targets[i..][..Head(targets[i..])] == targets[i..end];
    assert targets[i..][Head(targets[i..])..] == targets[end..];
  }

  class Dispatcher {
    var gatewayQueue: seq<PushMessage>
    var msg2sender: map<int64, int64>
    var log: seq<Event>
    var acks: seq<(int64, int64)>

    constructor ()
      ensures gatewayQueue == [] && msg2sender == map[] && log == [] && acks == []
    {
      gatewayQueue, msg2sender, log, acks := [], map[], [], [];
    }

    /** `admit(k)` is false when the k-th batch waits 200 ms at a full channel and is dropped. */
    method DispatchGateway(msg: PushMessage, admit: nat -> bool)
      modifies this
      ensures msg2sender == old(msg2sender)[msg.body.id := msg.body.senderId] && acks == old(acks)
      ensures gatewayQueue == old(gatewayQueue) + BatchMessages(msg.body, Admitted(msg.targets, admit, 0))
      ensures log == old(log) + DispatcherPart(msg, admit)
    {
      hide Admitted, DroppedCount, BatchMessages, Wrap32;
      var targets, n := msg.targets, |msg.targets|;
      NoBatches(msg.body, targets[n..], admit);
      msg2sender := msg2sender[msg.body.id := msg.body.senderId];
      log := log + [Opened(msg.body.id, Wrap32(n))];
      var dropped: int32 := 0;
      var i, k := 0, 0;
      assert targets[0..] == targets;
      ghost var lost: nat := 0;
      while i < n
        invariant 0 <= i <= n && dropped == Wrap32(lost)
        invariant lost + DroppedCount(targets[i..], admit, k) == DroppedCount(targets, admit, 0)
        invariant gatewayQueue + BatchMessages(msg.body, Admitted(targets[i..], admit, k))
                  == old(gatewayQueue) + BatchMessages(msg.body, Admitted(targets, admit, 0))
        invariant msg2sender == old(msg2sender)[msg.body.id := msg.body.senderId] && acks == old(acks)
        invariant log == old(log) + [Opened(msg.body.id, Wrap32(n))]
      {
        var end := if i + BATCH_SIZE > n then n else i + BATCH_SIZE;
        var subMsg := PushMessage(msg.body, targets[i..end]);
        NextBatch(msg.body, targets, admit, i, k, end);
        if admit(k) {
          ghost var later := BatchMessages(msg.body, Admitted(targets[end..], admit, k + 1));
          assert gatewayQueue + ([subMsg] + later) == (gatewayQueue + [subMsg]) + later;
          gatewayQueue := gatewayQueue + [subMsg];
        } else {
          WrapsOnce(lost, end - i);
          dropped, lost := Wrap32(dropped + (end - i)), lost + (end - i);
        }
        i, k := end, k + 1;
      }
      if dropped > 0 {
        log := log + [Reported(msg.body.id, true, dropped)];
      }
    }

    /** Takes one batch out of the channel; the source loops for ever. */
    method GatewayWorker(f: Faults) returns (part: seq<Event>)
      requires gatewayQueue != [] && |gatewayQueue[0].targets| <= BATCH_SIZE
      modifies this
      ensures gatewayQueue == old(gatewayQueue)[1..]
      ensures log == old(log) + part && msg2sender == old(msg2sender) && acks == old(acks)
      ensures Settles(part, old(gatewayQueue)[0].body, multiset(old(gatewayQueue)[0].targets))
      ensures Balance(part).parked == multiset(ParkedIn(old(gatewayQueue)[0].targets, f))
      ensures Harmless(f, old(gatewayQueue)[0].targets) ==> Balance(part).failed == 0
      ensures CopiesAreDue(part, old(gatewayQueue)[0].targets, old(gatewayQueue)[0].body, f)
    {
      var msg := gatewayQueue[0];
      gatewayQueue := gatewayQueue[1..];
      part := ProcessBatch(msg, f);
      log := log + part;
    }

    /** The completion callback; `delivered` is the outcome of the single-target push. */
    method SendACKToSender(id: int64, delivered: bool)
      modifies this
      ensures gatewayQueue == old(gatewayQueue) && log == old(log)
      ensures msg2sender == old(msg2sender) - {id}
      ensures acks == old(acks) + if id in old(msg2sender) && delivered then [(id, old(msg2sender)[id])] else []
    {
      if id !in msg2sender { return; }
      var sender := msg2sender[id];
      msg2sender := msg2sender - {id};
      if delivered {
        acks := acks + [(id, sender)];
      }
    }

    method OnFailMessage(id: int64)
      modifies this
      ensures gatewayQueue == old(gatewayQueue) && log == old(log) && acks == old(acks)
      ensures msg2sender == old(msg2sender) - {id}
    {
      msg2sender := msg2sender - {id};
    }
  }

  // ---------- One message, all its workers, any interleaving ----------

  /** Where each participant stands, and the events emitted so far in order. */
  datatype Progress = Progress(next: seq<nat>, emitted: seq<Event>)

  function Zeros(n: nat): (zeros: seq<nat>)
    ensures |zeros| == n && forall k | 0 <= k < n :: zeros[k] == 0
  {
    if n == 0 then [] else Zeros(n - 1) + [0]
  }

  /** Participants emit their events one by one, in the order the schedule picks them. */
  function Play(parts: seq<seq<Event>>, schedule: seq<nat>): (p: Progress)
    ensures |p.next| == |parts| && forall k | 0 <= k < |parts| :: p.next[k] <= |parts[k]|
  {
    if schedule == [] then Progress(Zeros(|parts|), [])
    else
      var p, k := Play(parts, schedule[..|schedule| - 1]), schedule[|schedule| - 1];
      if k < |parts| && p.next[k] < |parts[k]| then
        Progress(p.next[k := p.next[k] + 1], p.emitted + [parts[k][p.next[k]]])
      else p
  }

  function Emitted(parts: seq<seq<Event>>, next: seq<nat>): Account
    requires |next| == |parts| && forall k | 0 <= k < |parts| :: next[k] <= |parts[k]|
  {
    if parts == [] then NOTHING
    else
      var m := |parts| - 1;
      Emitted(parts[..m], next[..m]).Plus(Balance(parts[m][..next[m]]))
  }

  lemma PlusSwaps(a: Account, b: Account, c: Account)
    ensures a.Plus(c).Plus(b) == a.Plus(b).Plus(c) == a.Plus(b.Plus(c))
  {
    PlusAssociates(a, b, c);
    assert a.handed + c.handed + b.handed == a.handed + b.handed + c.handed;
    assert a.parked + c.parked + b.parked == a.parked + b.parked + c.parked;
  }

  lemma LastEmitsMore(parts: seq<seq<Event>>, next: seq<nat>)
    requires parts != [] && |next| == |parts| && forall j | 0 <= j < |parts| :: next[j] <= |parts[j]|
    requires next[|parts| - 1] < |parts[|parts| - 1]|
    ensures var m := |parts| - 1;
            Emitted(parts, next[m := next[m] + 1]) == Emitted(parts, next).Plus(AccountOf(parts[m][next[m]]))
  {
    hide Balance, AccountOf;
    var m := |parts| - 1;
    assert next[m := next[m] + 1][..m] == next[..m];
    assert parts[m][..next[m] + 1] == parts[m][..next[m]] + [parts[m][next[m]]];
    Appended(parts[m][..next[m]], parts[m][next[m]]);
    PlusAssociates(Emitted(parts[..m], next[..m]), Balance(parts[m][..next[m]]), AccountOf(parts[m][next[m]]));
  }

  lemma {:induction false} OneMoreEmitted(parts: seq<seq<Event>>, next: seq<nat>, k: nat)
    requires |next| == |parts| && forall j | 0 <= j < |parts| :: next[j] <= |parts[j]|
    requires k < |parts| && next[k] < |parts[k]|
    ensures Emitted(parts, next[k := next[k] + 1]) == Emitted(parts, next).Plus(AccountOf(parts[k][next[k]]))
  {
    hide Balance, AccountOf;
    var m, e := |parts| - 1, AccountOf(parts[k][next[k]]);
    if k == m {
      LastEmitsMore(parts, next);
    } else {
      assert next[k := next[k] + 1][..m] == next[..m][k := next[k] + 1];
      OneMoreEmitted(parts[..m], next[..m], k);
      PlusSwaps(Emitted(parts[..m], next[..m]), Balance(parts[m][..next[m]]), e);
    }
  }

  lemma EmittedLast(parts: seq<seq<Event>>, next: seq<nat>)
    requires parts != [] && |next| == |parts| && forall k | 0 <= k < |parts| :: next[k] <= |parts[k]|
    ensures var m := |parts| - 1;
            Emitted(parts, next) == Emitted(parts[..m], next[..m]).Plus(Balance(parts[m][..next[m]]))
  {
  }

  lemma StartOfNothing(part: seq<Event>)
    ensures Balance(part[..0]) == NOTHING
  {
    EmptyBalance();
    assert part[..0] == [];
  }

  lemma NobodyEmits()
    ensures Emitted([], Zeros(0)) == NOTHING
  {
  }

  lemma OneZeroLess(n: nat)
    requires n > 0
    ensures Zeros(n)[..n - 1] == Zeros(n - 1) && Zeros(n)[n - 1] == 0
  {
  }

  lemma StillNothing(parts: seq<seq<Event>>)
    requires parts != [] && Emitted(parts[..|parts| - 1], Zeros(|parts| - 1)) == NOTHING
    ensures Emitted(parts, Zeros(|parts|)) == NOTHING
  {
    hide Balance, Emitted, Zeros;
    var m := |parts| - 1;
    OneZeroLess(|parts|);
    StartOfNothing(parts[m]);
    EmittedLast(parts, Zeros(|parts|));
    PlusNothing(NOTHING);
  }

  lemma {:induction false} NothingEmitted(parts: seq<seq<Event>>)
    ensures Emitted(parts, Zeros(|parts|)) == NOTHING
  {
    if parts == [] {
      NobodyEmits();
    } else {
      hide Emitted, Zeros;
      NothingEmitted(parts[..|parts| - 1]);
      StillNothing(parts);
    }
  }

  lemma {:induction false} PlayEmits(parts: seq<seq<Event>>, schedule: seq<nat>)
    ensures Balance(Play(parts, schedule).emitted) == Emitted(parts, Play(parts, schedule).next)
  {
    hide Balance, Emitted;
    if schedule == [] {
      NothingEmitted(parts);
      EmptyBalance();
    } else {
      var p, k := Play(parts, schedule[..|schedule| - 1]), schedule[|schedule| - 1];
      PlayEmits(parts, schedule[..|schedule| - 1]);
      if k < |parts| && p.next[k] < |parts[k]| {
        OneMoreEmitted(parts, p.next, k);
        Appended(p.emitted, parts[k][p.next[k]]);
      }
    }
  }

  /** A worker's partial work stays within its batch and never reports ahead. */
  lemma {:induction false} PrefixOfSettled(part: seq<Event>, body: ClientMessage, positions: multiset<int64>, n: nat)
    requires Settles(part, body, positions) && n <= |part|
    ensures var a := Balance(part[..n]);
            && a.handed <= positions && 0 <= a.done <= |a.handed| && a.failed >= 0
            && a.done + a.failed <= |positions|
    decreases |part| - n
  {
    assert part[..|part|] == part;
    PrefixBalance(part, n, |part|);
    assert forall e | e in part :: Proper(e, body);
    ReportsArePositive(part[..n]);
  }

  lemma {:induction false} PrefixBalance(part: seq<Event>, n: nat, m: nat)
    requires n <= m <= |part| && NeverAhead(part[..m])
    requires forall e | e in part :: e.Reported? ==> e.n > 0
    ensures NeverAhead(part[..n])
    ensures Balance(part[..n]).handed <= Balance(part[..m]).handed
    ensures Balance(part[..n]).done <= Balance(part[..m]).done && Balance(part[..n]).failed <= Balance(part[..m]).failed
  {
    hide Balance, NeverAhead;
    if n < m {
      assert part[..m] == part[..m - 1] + [part[m - 1]] && part[m - 1] in part;
      Appended(part[..m - 1], part[m - 1]);
      PrefixBalance(part, n, m - 1);
    }
  }

  lemma {:induction false} ReportsArePositive(log: seq<Event>)
    requires forall e | e in log :: e.Reported? ==> e.n > 0
    ensures Balance(log).done >= 0 && Balance(log).failed >= 0
    ensures NeverAhead(log) ==> Balance(log).done <= |Balance(log).handed|
  {
    if log != [] {
      assert log[|log| - 1] in log;
      ReportsArePositive(log[..|log| - 1]);
    }
  }

  /** What the workers have emitted, against the batches they were given. */
  lemma {:induction false} WorkersStayInBatches(parts: seq<seq<Event>>, next: seq<nat>, body: ClientMessage,
                                                batches: seq<seq<int64>>)
    requires |next| == |parts| == |batches| && forall k | 0 <= k < |parts| :: next[k] <= |parts[k]|
    requires forall k | 0 <= k < |parts| :: Settles(parts[k], body, multiset(batches[k]))
    ensures var a := Emitted(parts, next);
            && a.handed <= Flatten(batches) && 0 <= a.done <= |a.handed| && a.failed >= 0
            && a.done + a.failed <= |Flatten(batches)|
            && ((forall k | 0 <= k < |parts| :: next[k] == |parts[k]|) ==>
                  a.done == |a.handed| && a.done + a.failed == |Flatten(batches)|)
  {
    if parts != [] {
      var m := |parts| - 1;
      WorkersStayInBatches(parts[..m], next[..m], body, batches[..m]);
      PrefixOfSettled(parts[m], body, multiset(batches[m]), next[m]);
      assert parts[m][..|parts[m]|] == parts[m];
    }
  }

  /** `parts` is everything that reports on `msg`: the dispatcher, then one worker per
      admitted batch, each of which settled its batch. */
  ghost predicate Handles(parts: seq<seq<Event>>, msg: PushMessage, admit: nat -> bool) {
    var batches := Admitted(msg.targets, admit, 0);
    && |parts| == 1 + |batches|
    && parts[0] == DispatcherPart(msg, admit)
    && (forall k | 0 <= k < |batches| :: Settles(parts[k + 1], msg.body, multiset(batches[k])))
  }

  lemma BalanceOfOne(e: Event)
    ensures Balance([e]) == AccountOf(e)
  {
    hide Balance, NeverAhead, AccountOf;
    EmptyBalance();
    Appended([], e);
    assert [] + [e] == [e];
    PlusNothing(AccountOf(e));
  }

  lemma OpenedThenFailed(id: int64, count: int32, n: int32)
    ensures Balance([Opened(id, count)]) == NOTHING
    ensures Balance([Opened(id, count), Reported(id, true, n)]) == AccountOf(Reported(id, true, n))
  {
    hide Balance, NeverAhead;
    var e, f := Opened(id, count), Reported(id, true, n);
    BalanceOfOne(e);
    Appended([e], f);
    assert [e] + [f] == [e, f];
    PlusNothing(AccountOf(f));
  }

  /** The dropped targets that the dispatcher reports: its count is an int32, and one that has
      wrapped to zero or below is not reported at all. */
  function ReportedDrops(dropped: nat): (n: int32)
    ensures 0 <= n <= dropped && (n == dropped <==> dropped < TWO_31)
  {
    if Wrap32(dropped) > 0 then Wrap32(dropped) else 0
  }

  lemma DispatcherBalance(msg: PushMessage, admit: nat -> bool, n: nat)
    requires n <= |DispatcherPart(msg, admit)|
    ensures var a, dropped := Balance(DispatcherPart(msg, admit)[..n]), DroppedCount(msg.targets, admit, 0);
            && a.done == 0 && a.handed == multiset{} && a.parked == multiset{} && 0 <= a.failed <= dropped
            && (n == |DispatcherPart(msg, admit)| ==> a.failed == ReportedDrops(dropped))
  {
    hide Balance, Admitted, DroppedCount;
    TwoEventPart(msg.body.id, Wrap32(|msg.targets|), ReportedDrops(DroppedCount(msg.targets, admit, 0)), n);
  }

  lemma TwoEventPart(id: int64, count: int32, dropped: int32, n: nat)
    requires dropped >= 0 && n <= if dropped > 0 then 2 else 1
    ensures var part := [Opened(id, count)] + if dropped > 0 then [Reported(id, true, dropped)] else [];
            && Balance(part[..n]) == Account(0, if n == 2 then dropped else 0, multiset{}, multiset{})
  {
    hide Balance;
    var part := [Opened(id, count)] + if dropped > 0 then [Reported(id, true, dropped)] else [];
    EmptyBalance();
    OpenedThenFailed(id, count, dropped);
    if n == 0 {
      assert part[..n] == [];
    } else if n == 1 {
      assert part[..n] == [part[0]];
    } else {
      assert part[..n] == [part[0], part[1]];
    }
  }

  lemma {:induction false} SplitFirst(parts: seq<seq<Event>>, next: seq<nat>)
    requires parts != [] && |next| == |parts| && forall k | 0 <= k < |parts| :: next[k] <= |parts[k]|
    ensures Emitted(parts, next) == Balance(parts[0][..next[0]]).Plus(Emitted(parts[1..], next[1..]))
  {
    hide Balance, NeverAhead;
    var m := |parts| - 1;
    if m > 0 {
      SplitFirst(parts[..m], next[..m]);
      assert parts[..m][1..] == parts[1..][..m - 1] && next[..m][1..] == next[1..][..m - 1];
      PlusAssociates(Balance(parts[0][..next[0]]), Emitted(parts[..m][1..], next[..m][1..]), Balance(parts[m][..next[m]]));
    } else {
      assert Emitted(parts[..0], next[..0]) == NOTHING;
      assert Emitted(parts[1..], next[1..]) == NOTHING;
    }
  }

  /** The accounting of a whole message, whatever batches are dropped, whatever fails and
      however the workers interleave: never more is reported than there are targets, a
      position is reported done only after it was handed over, and when everyone has finished
      the reports add up to the number of targets, if and only if the count of the dropped ones
      has not wrapped. */
  lemma {:induction false} ReportsAddUp(msg: PushMessage, admit: nat -> bool, parts: seq<seq<Event>>, schedule: seq<nat>)
    requires Handles(parts, msg, admit)
    ensures var p := Play(parts, schedule);
            var a := Balance(p.emitted);
            && a.handed <= multiset(msg.targets) && a.done <= |a.handed|
            && a.done + a.failed <= |msg.targets|
            && ((forall k | 0 <= k < |parts| :: p.next[k] == |parts[k]|) ==>
                  (a.done + a.failed == |msg.targets| <==> DroppedCount(msg.targets, admit, 0) < TWO_31))
  {
    hide Balance, Emitted, Settles, Flatten;
    var p, batches := Play(parts, schedule), Admitted(msg.targets, admit, 0);
    PlayEmits(parts, schedule);
    SplitFirst(parts, p.next);
    DispatcherBalance(msg, admit, p.next[0]);
    WorkersStayInBatches(parts[1..], p.next[1..], msg.body, batches);
    BatchesPartition(msg.targets, admit, 0);
  }

  /** As many positions done as there are targets can only mean that all were handed over. */
  lemma AllDoneMeansAllHanded(msg: PushMessage, admit: nat -> bool, parts: seq<seq<Event>>, schedule: seq<nat>)
    requires Handles(parts, msg, admit) && Balance(Play(parts, schedule).emitted).done >= |msg.targets|
    ensures Balance(Play(parts, schedule).emitted).handed == multiset(msg.targets)
  {
    hide Balance;
    ReportsAddUp(msg, admit, parts, schedule);
    var handed, all := Balance(Play(parts, schedule).emitted).handed, multiset(msg.targets);
    assert all == handed + (all - handed);
    assert |all - handed| == 0;
  }
}
