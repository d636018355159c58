/** Every interleaving of concurrent `DoneN`/`FailN` calls (pkg/pendingTask/pendingTask.go:64-122).

    A call is a small program of atomic actions: look the counter up without a lock, add
    to `failed`, subtract from `pending`, delete the map entry under the lock, load
    `failed`, fire the callback. Any number of calls advance one action at a time, in any
    order, against counters that outlive their map entry. */
module PendingInterleaving {
  import opened GoInt
  import P = PendingTask

  /** One counter object on the heap; `id` and `total` record the Init that made it. */
  datatype Cell = Cell(id: int64, total: int32, pending: int32, failed: int32)

  /** The next action of a call. `Returned` is a call that was not the last one,
      `Missed` one whose lookup found no counter, `Notified` one that fired the callback. */
  datatype Pc =
    | Start
    | Found(cell: nat)
    | Counted(cell: nat)
    | Drained(cell: nat)
    | Unlinked(cell: nat)
    | Ready(cell: nat, failures: int32)
    | Returned
    | Notified
    | Missed

  /** `target` records which counter was live when the call was issued. */
  datatype Call = Call(id: int64, fails: bool, n: int32, target: nat, pc: Pc)

  datatype Event = Event(cell: nat, callback: P.Callback)

  datatype State = State(cells: seq<Cell>, table: map<int64, nat>, calls: seq<Call>, fired: seq<Event>)

  datatype Action = Init(id: int64, count: int32) | Issue(id: int64, fails: bool, n: int32) | Advance(call: nat)

  const EMPTY: State := State([], map[], [], [])

  /** Every reference held by the map or by a call points to a counter. */
  predicate Refs(s: State) {
    && (forall id | id in s.table :: s.table[id] < |s.cells|)
    && (forall i | 0 <= i < |s.calls| :: PcInRange(s.calls[i].pc, |s.cells|))
  }

  predicate PcInRange(pc: Pc, size: nat) {
    pc.Found? || pc.Counted? || pc.Drained? || pc.Unlinked? || pc.Ready? ==> pc.cell < size
  }

  /** One atomic action of the system; the code does not restrict any of them. */
  function Step(s: State, a: Action): (s': State)
    requires Refs(s)
    ensures Refs(s')
  {
    match a
    case Init(id, count) =>
      s.(cells := s.cells + [Cell(id, count, count, 0)], table := s.table[id := |s.cells|])
    case Issue(id, fails, n) =>
      s.(calls := s.calls + [Call(id, fails, n, if id in s.table then s.table[id] else 0, Start)])
    case Advance(i) =>
      if i < |s.calls| then AdvanceCall(s, i) else s
  }

  function AdvanceCall(s: State, i: nat): (s': State)
    requires Refs(s) && i < |s.calls|
    ensures Refs(s')
  {
    var c := s.calls[i];
    match c.pc
    case Start =>
      s.(calls := s.calls[i := c.(pc := if c.id in s.table then Found(s.table[c.id]) else Missed)])
    case Found(r) =>
      if c.fails then
        s.(cells := s.cells[r := s.cells[r].(failed := Wrap32(s.cells[r].failed + c.n))],
           calls := s.calls[i := c.(pc := Counted(r))])
      else Subtract(s, i, r)
    case Counted(r) => Subtract(s, i, r)
    case Drained(r) =>
      s.(table := s.table - {c.id}, calls := s.calls[i := c.(pc := Unlinked(r))])
    case Unlinked(r) =>
      s.(calls := s.calls[i := c.(pc := Ready(r, s.cells[r].failed))])
    case Ready(r, failures) =>
      var callback := if c.fails || failures > 0 then P.Failed(c.id, failures) else P.Completed(c.id);
      s.(calls := s.calls[i := c.(pc := Notified)], fired := s.fired + [Event(r, callback)])
    case _ => s
  }

  function Subtract(s: State, i: nat, r: nat): (s': State)
    requires Refs(s) && i < |s.calls| && r < |s.cells|
    ensures Refs(s')
  {
    var c := s.calls[i];
    var pending := Wrap32(s.cells[r].pending + Wrap32(-(c.n as int)));
    s.(cells := s.cells[r := s.cells[r].(pending := pending)],
       calls := s.calls[i := c.(pc := if pending > 0 then Returned else Drained(r))])
  }

  // ---------- What callers promise ----------

  datatype Measure = Issued | Subtracted | FailuresIssued | FailuresAdded | Draining | Closing

  predicate HasSubtracted(pc: Pc) {
    pc.Drained? || pc.Unlinked? || pc.Ready? || pc.Returned? || pc.Notified?
  }

  /** What call `c` contributes to measure `k` of counter `r`. */
  function Weight(k: Measure, r: nat, c: Call): int {
    if c.target != r then 0 else
    match k
    case Issued => c.n
    case Subtracted => if HasSubtracted(c.pc) then c.n else 0
    case FailuresIssued => if c.fails then c.n else 0
    case FailuresAdded => if c.fails && (c.pc.Counted? || HasSubtracted(c.pc)) then c.n else 0
    case Draining => if c.pc.Drained? then 1 else 0
    case Closing => if c.pc.Unlinked? || c.pc.Ready? then 1 else 0
  }

  function Tally(k: Measure, r: nat, calls: seq<Call>): int {
    if calls == [] then 0 else Tally(k, r, calls[..|calls| - 1]) + Weight(k, r, calls[|calls| - 1])
  }

  function FiredFor(r: nat, fired: seq<Event>): nat {
    if fired == [] then 0 else FiredFor(r, fired[..|fired| - 1]) + if fired[|fired| - 1].cell == r then 1 else 0
  }

  /** An ID is not initialised again while its counter is live, and the positive counts
      reported on a counter never exceed its total. */
  predicate Promised(s: State, a: Action) {
    match a
    case Init(id, count) => id !in s.table
    case Issue(id, fails, n) =>
      && id in s.table && n > 0
      && s.table[id] < |s.cells|
      && Tally(Issued, s.table[id], s.calls) + n <= s.cells[s.table[id]].total
    case Advance(_) => true
  }

  function Run(actions: seq<Action>): (s: State)
    ensures Refs(s)
  {
    if actions == [] then EMPTY else Step(Run(actions[..|actions| - 1]), actions[|actions| - 1])
  }

  predicate PromisedRun(actions: seq<Action>) {
    actions == [] ||
    (PromisedRun(actions[..|actions| - 1]) && Promised(Run(actions[..|actions| - 1]), actions[|actions| - 1]))
  }

  // ---------- Sums over the calls ----------

  lemma {:induction false} TallyUpdate(k: Measure, r: nat, calls: seq<Call>, i: nat, c: Call)
    requires i < |calls|
    ensures Tally(k, r, calls[i := c]) == Tally(k, r, calls) - Weight(k, r, calls[i]) + Weight(k, r, c)
  {
    var last := |calls| - 1;
    if i == last {
      assert calls[i := c][..last] == calls[..last];
    } else {
      assert calls[i := c][..last] == calls[..last][i := c];
      TallyUpdate(k, r, calls[..last], i, c);
    }
  }

  /** A call that has not subtracted yet leaves room between what was subtracted and what was issued. */
  lemma {:induction false} UnsubtractedLeavesRoom(r: nat, calls: seq<Call>, i: nat)
    requires i < |calls| && forall j | 0 <= j < |calls| :: calls[j].n > 0
    requires calls[i].target == r && !HasSubtracted(calls[i].pc)
    ensures Tally(Subtracted, r, calls) + calls[i].n <= Tally(Issued, r, calls)
  {
    var last := |calls| - 1;
    if i == last {
      SubtractedAtMostIssued(r, calls[..last]);
    } else {
      UnsubtractedLeavesRoom(r, calls[..last], i);
    }
  }

  lemma {:induction false} SubtractedAtMostIssued(r: nat, calls: seq<Call>)
    requires forall j | 0 <= j < |calls| :: calls[j].n > 0
    ensures 0 <= Tally(Subtracted, r, calls) <= Tally(Issued, r, calls)
    ensures 0 <= Tally(FailuresAdded, r, calls) <= Tally(FailuresIssued, r, calls) <= Tally(Issued, r, calls)
    ensures Tally(Draining, r, calls) >= 0 && Tally(Closing, r, calls) >= 0
  {
    if calls != [] {
      SubtractedAtMostIssued(r, calls[..|calls| - 1]);
    }
  }

  lemma {:induction false} MemberBoundsTally(k: Measure, r: nat, calls: seq<Call>, i: nat)
    requires i < |calls| && forall j | 0 <= j < |calls| :: calls[j].n > 0
    ensures Tally(k, r, calls) >= Weight(k, r, calls[i])
    ensures Tally(k, r, calls) >= 0
  {
    SubtractedAtMostIssued(r, calls);
    var last := |calls| - 1;
    SubtractedAtMostIssued(r, calls[..last]);
    if i < last {
      MemberBoundsTally(k, r, calls[..last], i);
    }
  }

  // ---------- The invariant ----------

  /** Counter `r`: its fields are what the calls have done so far, and once everything is
      subtracted exactly one call is on its way to, or has fired, the callback. */
  ghost predicate CellInv(s: State, r: nat)
    requires r < |s.cells|
  {
    var cell := s.cells[r];
    && Tally(Issued, r, s.calls) <= Max0(cell.total)
    && cell.pending == cell.total - Tally(Subtracted, r, s.calls)
    && cell.failed == Tally(FailuresAdded, r, s.calls)
    && Tally(Draining, r, s.calls) + Tally(Closing, r, s.calls) + FiredFor(r, s.fired)
       == (if cell.total > 0 && cell.pending == 0 then 1 else 0)
    && ((cell.id in s.table && s.table[cell.id] == r) <==> Tally(Closing, r, s.calls) + FiredFor(r, s.fired) == 0)
  }

  function Max0(x: int): int { if x > 0 then x else 0 }

  ghost predicate CallInv(s: State, c: Call) {
    && c.n > 0 && c.target < |s.cells| && s.cells[c.target].id == c.id
    && !c.pc.Missed?
    && (c.pc.Found? || c.pc.Counted? || c.pc.Drained? || c.pc.Unlinked? || c.pc.Ready? ==> c.pc.cell == c.target)
    && (c.pc.Counted? ==> c.fails)
    && (c.pc.Ready? ==> c.pc.failures == Tally(FailuresIssued, c.target, s.calls))
    && (c.pc.Drained? || c.pc.Unlinked? || c.pc.Ready? ==> s.cells[c.target].total > 0 && s.cells[c.target].pending == 0)
  }

  /** What the single callback of counter `r` has to be. */
  ghost function Verdict(s: State, r: nat): P.Callback
    requires r < |s.cells|
  {
    var failures := Tally(FailuresIssued, r, s.calls);
    if failures > 0 then P.Failed(s.cells[r].id, Wrap32(failures)) else P.Completed(s.cells[r].id)
  }

  ghost predicate Inv(s: State) {
    && Refs(s)
    && (forall r | 0 <= r < |s.cells| :: CellInv(s, r))
    && (forall i | 0 <= i < |s.calls| :: CallInv(s, s.calls[i]))
    && (forall id | id in s.table :: s.cells[s.table[id]].id == id)
    && (forall i | 0 <= i < |s.fired| :: EventInv(s, s.fired[i]))
  }

  ghost predicate EventInv(s: State, e: Event) {
    && e.cell < |s.cells|
    && s.cells[e.cell].total > 0 && s.cells[e.cell].pending == 0
    && e.callback == Verdict(s, e.cell)
  }

  // ---------- Every action keeps the invariant ----------

  lemma InitKeepsInv(s: State, a: Action)
    requires Inv(s) && a.Init? && Promised(s, a)
    ensures Inv(Step(s, a))
  {
    var s' := Step(s, a);
    NoCallYet(|s.cells|, s.calls, s.fired);
    forall r | 0 <= r < |s'.cells| ensures CellInv(s', r) {
      if r < |s.cells| {
        assert CellInv(s, r);
      }
    }
    forall i | 0 <= i < |s.calls| ensures CallInv(s', s.calls[i]) {
      assert CallInv(s, s.calls[i]);
    }
    forall i | 0 <= i < |s.fired| ensures EventInv(s', s.fired[i]) {
      assert EventInv(s, s.fired[i]);
    }
  }

  lemma {:induction false} NoCallYet(r: nat, calls: seq<Call>, fired: seq<Event>)
    requires forall i | 0 <= i < |calls| :: calls[i].target < r
    requires forall i | 0 <= i < |fired| :: fired[i].cell < r
    ensures forall k :: Tally(k, r, calls) == 0
    ensures FiredFor(r, fired) == 0
    decreases |calls| + |fired|
  {
    if calls != [] {
      NoCallYet(r, calls[..|calls| - 1], fired);
    } else if fired != [] {
      NoCallYet(r, calls, fired[..|fired| - 1]);
    }
  }

  lemma TallyAppend(k: Measure, r: nat, calls: seq<Call>, c: Call)
    ensures Tally(k, r, calls + [c]) == Tally(k, r, calls) + Weight(k, r, c)
  {
    assert (calls + [c])[..|calls|] == calls;
  }

  lemma IssueKeepsInv(s: State, a: Action)
    requires Inv(s) && a.Issue? && Promised(s, a)
    ensures Inv(Step(s, a))
  {
    var s' := Step(s, a);
    var target := s.table[a.id];
    var c := s'.calls[|s.calls|];
    forall k, r ensures Tally(k, r, s'.calls) == Tally(k, r, s.calls) + Weight(k, r, c) {
      TallyAppend(k, r, s.calls, c);
    }
    forall r | 0 <= r < |s'.cells| ensures CellInv(s', r) {
      assert CellInv(s, r);
    }
    RoomMeansPending(s, target, a.n);
    forall i | 0 <= i < |s'.calls| ensures CallInv(s', s'.calls[i]) {
      if i < |s.calls| {
        assert CallInv(s, s.calls[i]);
      }
    }
    forall i | 0 <= i < |s.fired| ensures EventInv(s', s.fired[i]) {
      assert EventInv(s, s.fired[i]);
    }
  }

  lemma CountsArePositive(s: State)
    requires Inv(s)
    ensures forall j | 0 <= j < |s.calls| :: s.calls[j].n > 0
  {
    assert forall j | 0 <= j < |s.calls| :: CallInv(s, s.calls[j]);
  }

  /** As long as there is room for another report, the counter is still positive. */
  lemma RoomMeansPending(s: State, r: nat, n: int32)
    requires Inv(s) && r < |s.cells| && n > 0
    requires Tally(Issued, r, s.calls) + n <= s.cells[r].total
    ensures s.cells[r].pending >= n
  {
    assert CellInv(s, r);
    assert forall i | 0 <= i < |s.calls| :: CallInv(s, s.calls[i]);
    SubtractedAtMostIssued(r, s.calls);
  }

  /** The counter of a call that has not subtracted is positive by at least its count,
      is still in the map, and nobody is closing it. */
  lemma UnsubtractedIsLive(s: State, i: nat)
    requires Inv(s) && i < |s.calls| && !HasSubtracted(s.calls[i].pc)
    ensures var c := s.calls[i];
            && s.cells[c.target].pending >= c.n
            && c.id in s.table && s.table[c.id] == c.target
            && Tally(Subtracted, c.target, s.calls) + c.n <= Tally(Issued, c.target, s.calls)
  {
    var c := s.calls[i];
    assert forall j | 0 <= j < |s.calls| :: CallInv(s, s.calls[j]);
    assert CellInv(s, c.target);
    UnsubtractedLeavesRoom(c.target, s.calls, i);
    SubtractedAtMostIssued(c.target, s.calls);
  }

  /** Failures not yet added belong to calls that have not subtracted yet. */
  lemma {:induction false} AllSubtractedMeansAllFailuresAdded(r: nat, calls: seq<Call>)
    requires forall j | 0 <= j < |calls| :: calls[j].n > 0
    ensures Tally(FailuresIssued, r, calls) - Tally(FailuresAdded, r, calls)
            <= Tally(Issued, r, calls) - Tally(Subtracted, r, calls)
  {
    if calls != [] {
      AllSubtractedMeansAllFailuresAdded(r, calls[..|calls| - 1]);
    }
  }

  /** Once `pending` is zero, the counter's `failed` is the number of failures ever reported. */
  lemma DrainedCounterIsFinal(s: State, r: nat)
    requires Inv(s) && r < |s.cells| && s.cells[r].total > 0 && s.cells[r].pending == 0
    ensures s.cells[r].failed == Tally(FailuresIssued, r, s.calls)
    ensures Tally(Issued, r, s.calls) == s.cells[r].total
  {
    assert CellInv(s, r);
    assert forall j | 0 <= j < |s.calls| :: CallInv(s, s.calls[j]);
    SubtractedAtMostIssued(r, s.calls);
    AllSubtractedMeansAllFailuresAdded(r, s.calls);
  }

  /** What an action of call `i` leaves alone: everything but the call's own counter and
      its own map entry. */
  ghost predicate OnlyMoves(s: State, s': State, i: nat)
    requires Inv(s) && i < |s.calls|
  {
    var c := s.calls[i];
    && Refs(s')
    && |s'.calls| == |s.calls| && s'.calls == s.calls[i := s'.calls[i]] && s'.calls[i] == c.(pc := s'.calls[i].pc)
    && |s'.cells| == |s.cells| && c.target < |s.cells|
    && (forall r | 0 <= r < |s.cells| && r != c.target ::
          s'.cells[r] == s.cells[r] && FiredFor(r, s'.fired) == FiredFor(r, s.fired))
    && s'.cells[c.target].id == s.cells[c.target].id && s'.cells[c.target].total == s.cells[c.target].total
    && (s.cells[c.target].pending == 0 ==> s'.cells[c.target].pending == 0)
    && (s'.table == s.table || (s'.table == s.table - {c.id} && c.id in s.table && s.table[c.id] == c.target))
  }

  lemma OtherCellKeepsInv(s: State, s': State, i: nat, r: nat)
    requires Inv(s) && i < |s.calls| && OnlyMoves(s, s', i)
    requires r < |s.cells| && r != s.calls[i].target
    ensures CellInv(s', r)
  {
    var c' := s'.calls[i];
    assert CellInv(s, r);
    TallyUpdate(Issued, r, s.calls, i, c');
    TallyUpdate(Subtracted, r, s.calls, i, c');
    TallyUpdate(FailuresAdded, r, s.calls, i, c');
    TallyUpdate(Draining, r, s.calls, i, c');
    TallyUpdate(Closing, r, s.calls, i, c');
  }

  lemma OtherCallKeepsInv(s: State, s': State, i: nat, j: nat)
    requires Inv(s) && i < |s.calls| && OnlyMoves(s, s', i)
    requires j < |s.calls| && j != i
    ensures CallInv(s', s'.calls[j])
  {
    assert CallInv(s, s.calls[j]);
    TallyUpdate(FailuresIssued, s.calls[j].target, s.calls, i, s'.calls[i]);
  }

  lemma OldEventKeepsInv(s: State, s': State, i: nat, j: nat)
    requires Inv(s) && i < |s.calls| && OnlyMoves(s, s', i)
    requires j < |s.fired|
    ensures EventInv(s', s.fired[j])
  {
    assert EventInv(s, s.fired[j]);
    TallyUpdate(FailuresIssued, s.fired[j].cell, s.calls, i, s'.calls[i]);
  }

  /** Counters, calls and callbacks other than those of the call that moved keep their invariant. */
  lemma OthersKeepInv(s: State, s': State, i: nat)
    requires Inv(s) && i < |s.calls| && OnlyMoves(s, s', i)
    ensures forall r | 0 <= r < |s.cells| && r != s.calls[i].target :: CellInv(s', r)
    ensures forall j | 0 <= j < |s.calls| && j != i :: CallInv(s', s'.calls[j])
    ensures forall j | 0 <= j < |s.fired| :: EventInv(s', s.fired[j])
    ensures forall id | id in s'.table :: s'.cells[s'.table[id]].id == id
  {
    forall r | 0 <= r < |s.cells| && r != s.calls[i].target ensures CellInv(s', r) { OtherCellKeepsInv(s, s', i, r); }
    forall j | 0 <= j < |s.calls| && j != i ensures CallInv(s', s'.calls[j]) { OtherCallKeepsInv(s, s', i, j); }
    forall j | 0 <= j < |s.fired| ensures EventInv(s', s.fired[j]) { OldEventKeepsInv(s, s', i, j); }
  }

  /** The six measures of the moved call's own counter, before and after. */
  lemma OwnTallies(calls: seq<Call>, i: nat, c: Call)
    requires i < |calls|
    ensures var r, was, now := c.target, calls[i], calls[i := c];
            && Tally(Issued, r, now) == Tally(Issued, r, calls) - Weight(Issued, r, was) + Weight(Issued, r, c)
            && Tally(Subtracted, r, now) == Tally(Subtracted, r, calls) - Weight(Subtracted, r, was) + Weight(Subtracted, r, c)
            && Tally(FailuresIssued, r, now) == Tally(FailuresIssued, r, calls) - Weight(FailuresIssued, r, was) + Weight(FailuresIssued, r, c)
            && Tally(FailuresAdded, r, now) == Tally(FailuresAdded, r, calls) - Weight(FailuresAdded, r, was) + Weight(FailuresAdded, r, c)
            && Tally(Draining, r, now) == Tally(Draining, r, calls) - Weight(Draining, r, was) + Weight(Draining, r, c)
            && Tally(Closing, r, now) == Tally(Closing, r, calls) - Weight(Closing, r, was) + Weight(Closing, r, c)
  {
    TallyUpdate(Issued, c.target, calls, i, c);
    TallyUpdate(Subtracted, c.target, calls, i, c);
    TallyUpdate(FailuresIssued, c.target, calls, i, c);
    TallyUpdate(FailuresAdded, c.target, calls, i, c);
    TallyUpdate(Draining, c.target, calls, i, c);
    TallyUpdate(Closing, c.target, calls, i, c);
  }

  lemma LookupKeepsInv(s: State, i: nat)
    requires Inv(s) && i < |s.calls| && s.calls[i].pc.Start?
    ensures Inv(AdvanceCall(s, i))
  {
    var s', c := AdvanceCall(s, i), s.calls[i];
    assert CallInv(s, c) && CellInv(s, c.target);
    UnsubtractedIsLive(s, i);
    OwnTallies(s.calls, i, s'.calls[i]);
    OthersKeepInv(s, s', i);
    assert CallInv(s', s'.calls[i]) && CellInv(s', c.target);
  }

  /** Neither counter field leaves the int32 range. */
  lemma CountFailureOwn(s: State, i: nat)
    requires Inv(s) && i < |s.calls|
    requires s.calls[i].pc.Found? && s.calls[i].fails
    ensures var s', c := AdvanceCall(s, i), s.calls[i];
            CallInv(s', s'.calls[i]) && CellInv(s', c.target)
  {
    var s', c := AdvanceCall(s, i), s.calls[i];
    assert CallInv(s, c) && CellInv(s, c.target);
    UnsubtractedIsLive(s, i);
    OwnTallies(s.calls, i, s'.calls[i]);
    CountsArePositive(s);
    SubtractedAtMostIssued(c.target, s'.calls);
    assert s.cells[c.target].failed + c.n == Tally(FailuresAdded, c.target, s'.calls) < TWO_31;
  }

  lemma CountFailureKeepsInv(s: State, i: nat)
    requires Inv(s) && i < |s.calls|
    requires s.calls[i].pc.Found? && s.calls[i].fails
    ensures Inv(AdvanceCall(s, i))
  {
    assert CallInv(s, s.calls[i]);
    CountFailureOwn(s, i);
    OthersKeepInv(s, AdvanceCall(s, i), i);
  }

  lemma SubtractOwn(s: State, i: nat)
    requires Inv(s) && i < |s.calls|
    requires s.calls[i].pc.Counted? || (s.calls[i].pc.Found? && !s.calls[i].fails)
    ensures var s', c := AdvanceCall(s, i), s.calls[i];
            CallInv(s', s'.calls[i]) && CellInv(s', c.target)
  {
    var c := s.calls[i];
    assert CallInv(s, c);
    UnsubtractedIsLive(s, i);
    var s' := Subtract(s, i, c.target);
    assert AdvanceCall(s, i) == s';
    SubtractOwnCell(s, s', i);
  }

  lemma SubtractOwnCell(s: State, s': State, i: nat)
    requires Inv(s) && i < |s.calls| && s.calls[i].target < |s.cells| && s' == Subtract(s, i, s.calls[i].target)
    requires CallInv(s, s.calls[i])
    requires s.calls[i].pc.Counted? || (s.calls[i].pc.Found? && !s.calls[i].fails)
    requires var c := s.calls[i]; s.cells[c.target].pending >= c.n && c.id in s.table && s.table[c.id] == c.target
    ensures CallInv(s', s'.calls[i]) && CellInv(s', s.calls[i].target)
  {
    var c, t := s.calls[i], s.calls[i].target;
    assert CellInv(s, t);
    OwnTallies(s.calls, i, s'.calls[i]);
    CountsArePositive(s);
    SubtractedAtMostIssued(t, s.calls);
    assert s'.cells[t].pending == s.cells[t].pending - c.n;
  }

  lemma SubtractKeepsInv(s: State, i: nat)
    requires Inv(s) && i < |s.calls|
    requires s.calls[i].pc.Counted? || (s.calls[i].pc.Found? && !s.calls[i].fails)
    ensures Inv(AdvanceCall(s, i))
  {
    assert CallInv(s, s.calls[i]);
    SubtractOwn(s, i);
    OthersKeepInv(s, AdvanceCall(s, i), i);
  }

  lemma UnlinkOwn(s: State, i: nat)
    requires Inv(s) && i < |s.calls|
    requires s.calls[i].pc.Drained?
    ensures var s', c := AdvanceCall(s, i), s.calls[i];
            CallInv(s', s'.calls[i]) && CellInv(s', c.target)
  {
    var s', c := AdvanceCall(s, i), s.calls[i];
    assert CallInv(s, c) && CellInv(s, c.target);
    DrainerIsAlone(s, i);
    OwnTallies(s.calls, i, s'.calls[i]);
  }

  lemma UnlinkKeepsInv(s: State, i: nat)
    requires Inv(s) && i < |s.calls|
    requires s.calls[i].pc.Drained?
    ensures Inv(AdvanceCall(s, i))
  {
    assert CallInv(s, s.calls[i]);
    UnlinkOwn(s, i);
    DrainerIsAlone(s, i);
    OthersKeepInv(s, AdvanceCall(s, i), i);
  }

  lemma DrainerIsAlone(s: State, i: nat)
    requires Inv(s) && i < |s.calls| && s.calls[i].pc.Drained?
    ensures var c := s.calls[i];
            && Tally(Draining, c.target, s.calls) == 1
            && Tally(Closing, c.target, s.calls) == 0 && FiredFor(c.target, s.fired) == 0
            && c.id in s.table && s.table[c.id] == c.target
  {
    var c := s.calls[i];
    assert CallInv(s, c) && CellInv(s, c.target);
    CountsArePositive(s);
    MemberBoundsTally(Draining, c.target, s.calls, i);
    SubtractedAtMostIssued(c.target, s.calls);
  }

  lemma LoadOwn(s: State, i: nat)
    requires Inv(s) && i < |s.calls|
    requires s.calls[i].pc.Unlinked?
    ensures var s', c := AdvanceCall(s, i), s.calls[i];
            CallInv(s', s'.calls[i]) && CellInv(s', c.target)
  {
    var s', c := AdvanceCall(s, i), s.calls[i];
    assert CallInv(s, c) && CellInv(s, c.target);
    DrainedCounterIsFinal(s, c.target);
    OwnTallies(s.calls, i, s'.calls[i]);
  }

  lemma LoadKeepsInv(s: State, i: nat)
    requires Inv(s) && i < |s.calls|
    requires s.calls[i].pc.Unlinked?
    ensures Inv(AdvanceCall(s, i))
  {
    assert CallInv(s, s.calls[i]);
    LoadOwn(s, i);
    OthersKeepInv(s, AdvanceCall(s, i), i);
  }

  lemma FireOwn(s: State, i: nat)
    requires Inv(s) && i < |s.calls|
    requires s.calls[i].pc.Ready?
    ensures var s', c := AdvanceCall(s, i), s.calls[i];
            CallInv(s', s'.calls[i]) && CellInv(s', c.target)
  {
    var s', c := AdvanceCall(s, i), s.calls[i];
    assert CallInv(s, c) && CellInv(s, c.target);
    OwnTallies(s.calls, i, s'.calls[i]);
    assert s'.fired[..|s.fired|] == s.fired;
  }

  lemma FireIsVerdict(s: State, i: nat)
    requires Inv(s) && i < |s.calls| && s.calls[i].pc.Ready?
    ensures var s' := AdvanceCall(s, i);
            |s'.fired| == |s.fired| + 1 && EventInv(s', s'.fired[|s.fired|])
  {
    var s', c := AdvanceCall(s, i), s.calls[i];
    assert CallInv(s, c) && CellInv(s, c.target);
    CountsArePositive(s);
    MemberBoundsTally(FailuresIssued, c.target, s.calls, i);
    TallyUpdate(FailuresIssued, c.target, s.calls, i, s'.calls[i]);
  }

  lemma FireKeepsInv(s: State, i: nat)
    requires Inv(s) && i < |s.calls| && s.calls[i].pc.Ready?
    ensures Inv(AdvanceCall(s, i))
  {
    var s' := AdvanceCall(s, i);
    assert CallInv(s, s.calls[i]);
    FireOwn(s, i);
    FireIsVerdict(s, i);
    assert s'.fired[..|s.fired|] == s.fired;
    OthersKeepInv(s, s', i);
    forall j | 0 <= j < |s'.fired| ensures EventInv(s', s'.fired[j]) {
      if j < |s.fired| { assert s'.fired[j] == s.fired[j]; }
    }
  }

  lemma StepKeepsInv(s: State, a: Action)
    requires Inv(s) && Promised(s, a)
    ensures Inv(Step(s, a))
  {
    match a
    case Init(_, _) => InitKeepsInv(s, a);
    case Issue(_, _, _) => IssueKeepsInv(s, a);
    case Advance(i) =>
      if i < |s.calls| {
        var c := s.calls[i];
        assert CallInv(s, c);
        match c.pc
        case Start => LookupKeepsInv(s, i);
        case Found(_) => if c.fails { CountFailureKeepsInv(s, i); } else { SubtractKeepsInv(s, i); }
        case Counted(_) => SubtractKeepsInv(s, i);
        case Drained(_) => UnlinkKeepsInv(s, i);
        case Unlinked(_) => LoadKeepsInv(s, i);
        case Ready(_, _) => FireKeepsInv(s, i);
        case _ =>
      }
  }

  lemma {:induction false} RunKeepsInv(actions: seq<Action>)
    requires PromisedRun(actions)
    ensures Inv(Run(actions))
  {
    if actions != [] {
      RunKeepsInv(actions[..|actions| - 1]);
      StepKeepsInv(Run(actions[..|actions| - 1]), actions[|actions| - 1]);
    }
  }

  // ---------- Main results ----------

  predicate InFlight(c: Call) {
    !(c.pc.Returned? || c.pc.Notified? || c.pc.Missed?)
  }

  /** Safety of every interleaving: no lookup is lost, a callback fires only once the
      reports reach the total, at most one fires for each counter, and it is the failure
      callback with the exact number of failures if there were any. */
  lemma {:induction false} CallbackSafety(actions: seq<Action>)
    requires PromisedRun(actions)
    ensures var s := Run(actions);
            && (forall i | 0 <= i < |s.calls| :: !s.calls[i].pc.Missed?)
            && (forall r | 0 <= r < |s.cells| :: FiredFor(r, s.fired) <= 1)
            && (forall e | e in s.fired ::
                  && e.cell < |s.cells|
                  && Tally(Subtracted, e.cell, s.calls) == s.cells[e.cell].total > 0
                  && e.callback == Verdict(s, e.cell))
  {
    var s := Run(actions);
    RunKeepsInv(actions);
    forall i | 0 <= i < |s.calls| ensures !s.calls[i].pc.Missed? { assert CallInv(s, s.calls[i]); }
    assert forall i | 0 <= i < |s.calls| :: CallInv(s, s.calls[i]);
    forall r | 0 <= r < |s.cells| ensures FiredFor(r, s.fired) <= 1 {
      assert CellInv(s, r);
      SubtractedAtMostIssued(r, s.calls);
    }
    forall e | e in s.fired
      ensures e.cell < |s.cells| && Tally(Subtracted, e.cell, s.calls) == s.cells[e.cell].total > 0 && e.callback == Verdict(s, e.cell)
    {
      assert EventInv(s, e);
      assert CellInv(s, e.cell);
    }
  }

  /** The other direction: when the reports issued on a counter reach its total and their
      calls have run to the end, exactly one callback has fired. */
  lemma {:induction false} CallbackFires(actions: seq<Action>, r: nat)
    requires PromisedRun(actions)
    requires r < |Run(actions).cells| && Run(actions).cells[r].total > 0
    requires Tally(Issued, r, Run(actions).calls) == Run(actions).cells[r].total
    requires forall c | c in Run(actions).calls && c.target == r :: !InFlight(c)
    ensures FiredFor(r, Run(actions).fired) == 1
  {
    var s := Run(actions);
    RunKeepsInv(actions);
    assert CellInv(s, r);
    assert forall i | 0 <= i < |s.calls| :: CallInv(s, s.calls[i]);
    NothingInFlight(r, s.calls);
  }

  lemma {:induction false} NothingInFlight(r: nat, calls: seq<Call>)
    requires forall c | c in calls && c.target == r :: !InFlight(c) && !c.pc.Missed?
    ensures Tally(Subtracted, r, calls) == Tally(Issued, r, calls)
    ensures Tally(Draining, r, calls) == 0 && Tally(Closing, r, calls) == 0
  {
    if calls != [] {
      assert calls[|calls| - 1] in calls;
      NothingInFlight(r, calls[..|calls| - 1]);
    }
  }

  // ---------- A call that is not interleaved ----------

  ghost function View(cells: seq<Cell>, table: map<int64, nat>): map<int64, P.Cell>
    requires forall id | id in table :: table[id] < |cells|
  {
    map id | id in table :: P.Cell(cells[table[id]].pending, cells[table[id]].failed)
  }

  /** The plain table this state stands for. */
  ghost function Abstract(s: State): P.Table
    requires Refs(s)
  {
    P.Table(View(s.cells, s.table), Callbacks(s.fired))
  }

  function Callbacks(fired: seq<Event>): seq<P.Callback> {
    if fired == [] then [] else Callbacks(fired[..|fired| - 1]) + [fired[|fired| - 1].callback]
  }

  ghost function Advances(s: State, i: nat, steps: nat): (s': State)
    requires Refs(s)
    ensures Refs(s')
    decreases steps
  {
    if steps == 0 then s else Advances(Step(s, Advance(i)), i, steps - 1)
  }

  lemma {:induction false} RestIsIdle(s: State, i: nat, steps: nat)
    requires Refs(s) && i < |s.calls| && !InFlight(s.calls[i])
    ensures Advances(s, i, steps) == s
  {
    if steps > 0 { RestIsIdle(s, i, steps - 1); }
  }

  lemma OneStep(s: State, i: nat, steps: nat)
    requires Refs(s) && i < |s.calls| && steps > 0
    ensures Advances(s, i, steps) == Advances(AdvanceCall(s, i), i, steps - 1)
  {
  }

  ghost predicate Unshared(table: map<int64, nat>) {
    forall id, jd | id in table && jd in table && id != jd :: table[id] != table[jd]
  }

  lemma ViewOfWrite(cells: seq<Cell>, table: map<int64, nat>, id: int64, cell: Cell)
    requires (forall jd | jd in table :: table[jd] < |cells|) && Unshared(table) && id in table
    ensures View(cells[table[id] := cell], table) == View(cells, table)[id := P.Cell(cell.pending, cell.failed)]
  {
  }

  lemma ViewOfDelete(cells: seq<Cell>, table: map<int64, nat>, id: int64)
    requires forall jd | jd in table :: table[jd] < |cells|
    ensures View(cells, table - {id}) == View(cells, table) - {id}
  {
  }

  /** The part of `Report` from the subtraction on. */
  function Settle(t: P.Table, c: Call, cell: Cell): P.Table {
    var pending := Wrap32(cell.pending + Wrap32(-(c.n as int)));
    if pending > 0 then t.(cells := t.cells[c.id := P.Cell(pending, cell.failed)])
    else P.Table(t.cells - {c.id}, t.fired + [if c.fails || cell.failed > 0 then P.Failed(c.id, cell.failed) else P.Completed(c.id)])
  }

  lemma SubtractionSettles(s: State, i: nat, steps: nat)
    requires Refs(s) && i < |s.calls| && steps >= 4 && Unshared(s.table)
    requires s.calls[i].pc.Counted? || (s.calls[i].pc.Found? && !s.calls[i].fails)
    requires s.calls[i].id in s.table && s.table[s.calls[i].id] == s.calls[i].pc.cell
    ensures Abstract(Advances(s, i, steps)) == Settle(Abstract(s), s.calls[i], s.cells[s.calls[i].pc.cell])
  {
    hide Settle, Abstract, Advances, Subtract;
    var c, r := s.calls[i], s.calls[i].pc.cell;
    OneStep(s, i, steps);
    SettleView(s, i, steps - 1, Subtract(s, i, r), r);
  }

  lemma SettleView(s: State, i: nat, steps: nat, s1: State, r: nat)
    requires Refs(s) && i < |s.calls| && steps >= 3 && Unshared(s.table)
    requires s.calls[i].id in s.table && s.table[s.calls[i].id] == r && s1 == Subtract(s, i, r)
    ensures Abstract(Advances(s1, i, steps)) == Settle(Abstract(s), s.calls[i], s.cells[r])
  {
    hide Wrap32;
    ViewOfWrite(s.cells, s.table, s.calls[i].id, s1.cells[r]);
    if s1.cells[r].pending > 0 {
      RestIsIdle(s1, i, steps);
    } else {
      SettleLast(s, i, steps, s1, r);
    }
  }

  lemma SettleLast(s: State, i: nat, steps: nat, s1: State, r: nat)
    requires Refs(s) && i < |s.calls| && steps >= 3 && Unshared(s.table)
    requires s.calls[i].id in s.table && s.table[s.calls[i].id] == r && s1 == Subtract(s, i, r)
    requires s1.cells[r].pending <= 0
    ensures Abstract(Advances(s1, i, steps)) == Settle(Abstract(s), s.calls[i], s.cells[r])
  {
    hide Wrap32, Advances;
    ClosingFires(s1, i, r, steps);
    LastView(s.cells, s.table, s.calls[i].id, s1.cells[r]);
  }

  lemma LastView(cells: seq<Cell>, table: map<int64, nat>, id: int64, cell: Cell)
    requires (forall jd | jd in table :: table[jd] < |cells|) && Unshared(table) && id in table
    ensures View(cells[table[id] := cell], table - {id}) == View(cells, table) - {id}
  {
    ViewOfWrite(cells, table, id, cell);
    ViewOfDelete(cells[table[id] := cell], table, id);
    DeleteAfterWrite(View(cells, table), id, P.Cell(cell.pending, cell.failed));
  }

  lemma DeleteAfterWrite<V>(m: map<int64, V>, id: int64, v: V)
    ensures m[id := v] - {id} == m - {id}
  {
  }

  lemma ClosingFires(s: State, i: nat, r: nat, steps: nat)
    requires Refs(s) && i < |s.calls| && s.calls[i].pc == Drained(r) && steps >= 3
    ensures var c, failed := s.calls[i], s.cells[r].failed;
            && Advances(s, i, steps).cells == s.cells
            && Advances(s, i, steps).table == s.table - {c.id}
            && Callbacks(Advances(s, i, steps).fired)
               == Callbacks(s.fired) + [if c.fails || failed > 0 then P.Failed(c.id, failed) else P.Completed(c.id)]
  {
    var s1 := Step(s, Advance(i));
    var s2 := Step(s1, Advance(i));
    var s3 := Step(s2, Advance(i));
    assert Advances(s, i, steps) == Advances(s1, i, steps - 1) == Advances(s2, i, steps - 2) == Advances(s3, i, steps - 3);
    RestIsIdle(s3, i, steps - 3);
    assert s3.fired[..|s.fired|] == s.fired;
  }

  /** Both calls subtract before either deletes the entry. */
  function BothSubtract(s: State, i: nat, j: nat): (s': State)
    requires Refs(s)
    ensures Refs(s')
  {
    Step(Step(s, Advance(i)), Advance(j))
  }

  /** The promise that reports stay within the total is needed: two calls that each report
      all of one counter, and have both looked it up, both fire. */
  lemma {:induction false} OverReportFiresTwice(s: State, i: nat, j: nat, r: nat)
    requires Refs(s) && i < |s.calls| && j < |s.calls| && i != j && r < |s.cells|
    requires s.calls[i] == s.calls[j] && s.calls[i].pc == Found(r) && !s.calls[i].fails
    requires s.calls[i].n == s.cells[r].pending > 0 && s.cells[r].failed == 0
    ensures var s' := Advances(Advances(BothSubtract(s, i, j), i, 3), j, 3);
            Callbacks(s'.fired) == Callbacks(s.fired) + [P.Completed(s.calls[i].id), P.Completed(s.calls[i].id)]
  {
    var id := s.calls[i].id;
    var s1 := BothSubtract(s, i, j);
    BothDrained(s, i, j, r);
    ClosingFires(s1, i, r, 3);
    OnlyOneMoves(s1, i, j, 3);
    var s2 := Advances(s1, i, 3);
    ClosingFires(s2, j, r, 3);
    assert Callbacks(s.fired) + [P.Completed(id)] + [P.Completed(id)] == Callbacks(s.fired) + [P.Completed(id), P.Completed(id)];
  }

  lemma RunOnce(before: seq<Action>, a: Action)
    ensures Run(before + [a]) == Step(Run(before), a)
  {
    assert (before + [a])[..|before|] == before;
  }

  lemma {:induction false} AdvancesAreARun(before: seq<Action>, i: nat, steps: nat)
    ensures exists more: seq<Action> :: Run(before + more) == Advances(Run(before), i, steps)
    decreases steps
  {
    hide Run, Step;
    if steps == 0 {
      assert before + [] == before;
    } else {
      RunOnce(before, Advance(i));
      AdvancesAreARun(before + [Advance(i)], i, steps - 1);
      var more: seq<Action> :| Run(before + [Advance(i)] + more) == Advances(Run(before + [Advance(i)]), i, steps - 1);
      assert before + ([Advance(i)] + more) == before + [Advance(i)] + more;
    }
  }

  const ADVANCES: seq<Action> := [Advance(0), Advance(0), Advance(0), Advance(0), Advance(0)]

  /** A counter whose only call reports everything completes. */
  lemma OneCallCompletes(id: int64, n: int32)
    requires n > 0
    ensures Run([Init(id, n), Issue(id, false, n)] + ADVANCES).fired == [Event(0, P.Completed(id))]
  {
    hide Run;
    var before := [Init(id, n), Issue(id, false, n)];
    var a := Advance(0);
    OneCallIssued(id, n);
    RunOnce(before, a);
    RunOnce(before + [a], a);
    assert Run(before + [a] + [a]) == State([Cell(id, n, 0, 0)], map[id := 0], [Call(id, false, n, 0, Drained(0))], []);
    OneCallFires(before + [a] + [a], id, n);
    assert before + [a] + [a] + [a] + [a] + [a] == before + ADVANCES;
  }

  lemma RunsFromEmpty()
    ensures Run([]) == EMPTY
  {
  }

  lemma OneCallIssued(id: int64, n: int32)
    ensures Run([Init(id, n), Issue(id, false, n)]) ==
            State([Cell(id, n, n, 0)], map[id := 0], [Call(id, false, n, 0, Start)], [])
  {
    hide Run;
    var a, b := Init(id, n), Issue(id, false, n);
    RunsFromEmpty();
    RunOnce([], a);
    RunOnce([a], b);
    assert [] + [a] == [a] && [a] + [b] == [a, b];
  }

  lemma OneCallFires(before: seq<Action>, id: int64, n: int32)
    requires Run(before) == State([Cell(id, n, 0, 0)], map[id := 0], [Call(id, false, n, 0, Drained(0))], [])
    ensures Run(before + [Advance(0)] + [Advance(0)] + [Advance(0)]).fired == [Event(0, P.Completed(id))]
  {
    hide Run;
    var a := Advance(0);
    RunOnce(before, a);
    RunOnce(before + [a], a);
    RunOnce(before + [a] + [a], a);
  }

  /** One counter of `n`, and two calls reporting `n` each that are about to look it up. */
  function TwoCalls(id: int64, n: int32): seq<Action> {
    [Init(id, n), Issue(id, false, n), Issue(id, false, n)]
  }

  lemma TwoCallsIssued(id: int64, n: int32)
    ensures Run(TwoCalls(id, n)) ==
            State([Cell(id, n, n, 0)], map[id := 0], [Call(id, false, n, 0, Start), Call(id, false, n, 0, Start)], [])
  {
    hide Run;
    var a, b := Init(id, n), Issue(id, false, n);
    RunsFromEmpty();
    RunOnce([], a);
    RunOnce([a], b);
    RunOnce([a, b], b);
    assert [] + [a] == [a] && [a] + [b] == [a, b] && [a, b] + [b] == [a, b, b];
  }

  lemma TwoCallsFound(id: int64, n: int32)
    ensures var s := Run(TwoCalls(id, n) + [Advance(0)] + [Advance(1)]);
            s == State([Cell(id, n, n, 0)], map[id := 0],
                       [Call(id, false, n, 0, Found(0)), Call(id, false, n, 0, Found(0))], [])
  {
    hide Run, TwoCalls;
    TwoCallsIssued(id, n);
    RunOnce(TwoCalls(id, n), Advance(0));
    RunOnce(TwoCalls(id, n) + [Advance(0)], Advance(1));
  }

  /** That state is reached: some run of a counter and two calls completes its ID twice. */
  lemma {:induction false} OverReportHappens(id: int64, n: int32)
    requires n > 0
    ensures exists more: seq<Action> ::
              Callbacks(Run(TwoCalls(id, n) + more).fired) == [P.Completed(id), P.Completed(id)]
  {
    hide Run, TwoCalls, Advances, Step;
    var looked := TwoCalls(id, n) + [Advance(0)] + [Advance(1)];
    TwoCallsFound(id, n);
    OverReportFiresTwice(Run(looked), 0, 1, 0);
    RunOnce(looked, Advance(0));
    RunOnce(looked + [Advance(0)], Advance(1));
    var both := looked + [Advance(0)] + [Advance(1)];
    AdvancesAreARun(both, 0, 3);
    var first: seq<Action> :| Run(both + first) == Advances(Run(both), 0, 3);
    AdvancesAreARun(both + first, 1, 3);
    var second: seq<Action> :| Run(both + first + second) == Advances(Run(both + first), 1, 3);
    var more := [Advance(0), Advance(1), Advance(0), Advance(1)] + first + second;
    assert TwoCalls(id, n) + more == both + first + second;
    assert Callbacks([]) + [P.Completed(id), P.Completed(id)] == [P.Completed(id), P.Completed(id)];
  }

  lemma BothDrained(s: State, i: nat, j: nat, r: nat)
    requires Refs(s) && i < |s.calls| && j < |s.calls| && i != j && r < |s.cells|
    requires s.calls[i] == s.calls[j] && s.calls[i].pc == Found(r) && !s.calls[i].fails
    requires s.calls[i].n == s.cells[r].pending > 0 && s.cells[r].failed == 0
    ensures var s1, c := BothSubtract(s, i, j), s.calls[i].(pc := Drained(r));
            && |s1.calls| == |s.calls| && s1.calls[i] == c && s1.calls[j] == c
            && |s1.cells| == |s.cells| && s1.cells[r].failed == 0 && s1.fired == s.fired
  {
  }

  lemma {:induction false} OnlyOneMoves(s: State, i: nat, j: nat, steps: nat)
    requires Refs(s) && i < |s.calls| && j < |s.calls| && i != j
    ensures var s' := Advances(s, i, steps); |s'.calls| == |s.calls| && s'.calls[j] == s.calls[j]
    decreases steps
  {
    hide Wrap32;
    if steps > 0 {
      OnlyOneMoves(Step(s, Advance(i)), i, j, steps - 1);
    }
  }

  lemma ReportIsSettle(t: P.Table, c: Call, cell: Cell)
    requires c.id in t.cells && t.cells[c.id] == P.Cell(cell.pending, cell.failed) && !c.fails
    ensures Settle(t, c, cell) == t.Report(c.id, false, c.n)
  {
  }

  lemma ReportIsCountThenSettle(t: P.Table, c: Call, was: Cell, cell: Cell)
    requires c.id in t.cells && t.cells[c.id] == P.Cell(was.pending, was.failed) && c.fails
    requires cell == was.(failed := Wrap32(was.failed + c.n))
    ensures Settle(t.(cells := t.cells[c.id := P.Cell(cell.pending, cell.failed)]), c, cell) == t.Report(c.id, true, c.n)
  {
    hide Wrap32;
    DeleteAfterWrite(t.cells, c.id, P.Cell(cell.pending, cell.failed));
  }

  /** Run alone from its lookup, a call does to the table exactly what the whole-call
      `Report` says: six actions for a call that ends up firing, fewer otherwise. */
  lemma {:induction false} AloneCallIsReport(s: State, i: nat)
    requires Refs(s) && i < |s.calls| && s.calls[i].pc.Start? && Unshared(s.table)
    ensures var c := s.calls[i];
            Abstract(Advances(s, i, 6)) == Abstract(s).Report(c.id, c.fails, c.n)
  {
    var c := s.calls[i];
    if c.id !in s.table {
      OneStep(s, i, 6);
      RestIsIdle(AdvanceCall(s, i), i, 5);
    } else if c.fails {
      AloneFail(s, i);
      ReportIsCountThenSettle(Abstract(s), c, s.cells[s.table[c.id]], CountedCell(s, i));
    } else {
      AloneDone(s, i);
      ReportIsSettle(Abstract(s), c, s.cells[s.table[c.id]]);
    }
  }

  lemma AloneDone(s: State, i: nat)
    requires Refs(s) && i < |s.calls| && s.calls[i].pc.Start? && Unshared(s.table)
    requires s.calls[i].id in s.table && !s.calls[i].fails
    ensures Abstract(Advances(s, i, 6)) == Settle(Abstract(s), s.calls[i], s.cells[s.table[s.calls[i].id]])
  {
    hide Wrap32, Settle;
    OneStep(s, i, 6);
    var s1 := AdvanceCall(s, i);
    SubtractionSettles(s1, i, 5);
    assert Abstract(s1) == Abstract(s);
    SettleIgnoresPc(Abstract(s), s.calls[i], s1.calls[i], s.cells[s.table[s.calls[i].id]]);
  }

  lemma SettleIgnoresPc(t: P.Table, c: Call, d: Call, cell: Cell)
    requires d == c.(pc := d.pc)
    ensures Settle(t, c, cell) == Settle(t, d, cell)
  {
  }

  function CountedCell(s: State, i: nat): Cell
    requires Refs(s) && i < |s.calls| && s.calls[i].id in s.table
  {
    var cell := s.cells[s.table[s.calls[i].id]];
    cell.(failed := Wrap32(cell.failed + s.calls[i].n))
  }

  lemma TwoActionsOfFail(s: State, i: nat)
    requires Refs(s) && i < |s.calls| && s.calls[i].pc.Start?
    requires s.calls[i].id in s.table && s.calls[i].fails
    ensures var c, r := s.calls[i], s.table[s.calls[i].id];
            AdvanceCall(AdvanceCall(s, i), i)
            == s.(cells := s.cells[r := CountedCell(s, i)], calls := s.calls[i := c.(pc := Counted(r))])
  {
    hide Wrap32;
  }

  lemma AloneFail(s: State, i: nat)
    requires Refs(s) && i < |s.calls| && s.calls[i].pc.Start? && Unshared(s.table)
    requires s.calls[i].id in s.table && s.calls[i].fails
    ensures var c, t, cell := s.calls[i], Abstract(s), CountedCell(s, i);
            Abstract(Advances(s, i, 6)) == Settle(t.(cells := t.cells[c.id := P.Cell(cell.pending, cell.failed)]), c, cell)
  {
    var s1 := AdvanceCall(s, i);
    var s2 := AdvanceCall(s1, i);
    OneStep(s, i, 6);
    OneStep(s1, i, 5);
    TwoActionsOfFail(s, i);
    AloneFailCounted(s, i, s2);
  }

  lemma AloneFailCounted(s: State, i: nat, s2: State)
    requires Refs(s) && i < |s.calls| && s.calls[i].id in s.table && s.calls[i].fails && Unshared(s.table)
    requires var c, r := s.calls[i], s.table[s.calls[i].id];
             s2 == s.(cells := s.cells[r := CountedCell(s, i)], calls := s.calls[i := c.(pc := Counted(r))])
    ensures var c, t, cell := s.calls[i], Abstract(s), CountedCell(s, i);
            Abstract(Advances(s2, i, 4)) == Settle(t.(cells := t.cells[c.id := P.Cell(cell.pending, cell.failed)]), c, cell)
  {
    hide Wrap32, Settle, Advances;
    ViewOfWrite(s.cells, s.table, s.calls[i].id, CountedCell(s, i));
    SubtractionSettles(s2, i, 4);
    SettleIgnoresPc(Abstract(s2), s.calls[i], s2.calls[i], CountedCell(s, i));
  }
}
