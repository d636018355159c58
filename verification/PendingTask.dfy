/** Sharded completion counters (pkg/pendingTask/pendingTask.go), one call at a time.
    `Table` is the plain map that the 64 shards are proved to behave like; the
    interleavings of the calls' atomic actions are in PendingInterleaving. */
module PendingTask {
  import opened GoInt

  const SHARD_COUNT: int := 64

  datatype Cell = Cell(pending: int32, failed: int32)

  datatype Callback = Completed(id: int64) | Failed(id: int64, count: int32)

  /** Live counters, and the callbacks fired so far. */
  datatype Table = Table(cells: map<int64, Cell>, fired: seq<Callback>) {
    function Init(id: int64, count: int32): Table {
      this.(cells := cells[id := Cell(count, 0)])
    }

    function Report(id: int64, fails: bool, n: int32): Table {
      if id !in cells then this else
      var failed := if fails then Wrap32(cells[id].failed + n) else cells[id].failed;
      var pending := Wrap32(cells[id].pending + Wrap32(-(n as int)));
      if pending > 0 then this.(cells := cells[id := Cell(pending, failed)])
      else Table(cells - {id}, fired + [if fails || failed > 0 then Failed(id, failed) else Completed(id)])
    }

    function Delete(id: int64): Table {
      this.(cells := cells - {id})
    }
  }

  /** getShard: negation wraps, and Go's `%` keeps the sign of its left operand. */
  function ShardIndex(id: int64): int {
    var magnitude := if id < 0 then Wrap64(-(id as int)) else id;
    Rem(magnitude, SHARD_COUNT)
  }

  /** The negation of the minimum int64 wraps to itself and stays negative; it is a
      multiple of 64, so even there the array index is legal. */
  lemma ShardIndexInRange(id: int64)
    ensures 0 <= ShardIndex(id) < SHARD_COUNT
  {
    if id == -TWO_63 {
      assert Wrap64(-(id as int)) == id;
      assert TWO_63 == 0x200_0000_0000_0000 * 64;
    }
  }

  datatype Operation = OpInit(id: int64, count: int32) | OpReport(id: int64, fails: bool, n: int32) | OpDelete(id: int64)

  function Apply(t: Table, op: Operation): Table {
    match op
    case OpInit(id, count) => t.Init(id, count)
    case OpReport(id, fails, n) => t.Report(id, fails, n)
    case OpDelete(id) => t.Delete(id)
  }

  function Run(t: Table, ops: seq<Operation>): Table {
    if ops == [] then t else Apply(Run(t, ops[..|ops| - 1]), ops[|ops| - 1])
  }

  function OpsOn(ops: seq<Operation>, id: int64): seq<Operation> {
    if ops == [] then []
    else OpsOn(ops[..|ops| - 1], id) + if ops[|ops| - 1].id == id then [ops[|ops| - 1]] else []
  }

  function CallbacksOn(fired: seq<Callback>, id: int64): seq<Callback> {
    if fired == [] then []
    else CallbacksOn(fired[..|fired| - 1], id) + if fired[|fired| - 1].id == id then [fired[|fired| - 1]] else []
  }

  /** Two tables that cannot be told apart by looking at `id` alone. */
  ghost predicate AgreeOn(t: Table, u: Table, id: int64) {
    && (id in t.cells <==> id in u.cells)
    && (id in t.cells ==> t.cells[id] == u.cells[id])
    && CallbacksOn(t.fired, id) == CallbacksOn(u.fired, id)
  }

  lemma CallbackAppended(fired: seq<Callback>, c: Callback, id: int64)
    ensures CallbacksOn(fired + [c], id) == CallbacksOn(fired, id) + if c.id == id then [c] else []
  {
    assert (fired + [c])[..|fired|] == fired;
  }

  lemma OwnOperationKeepsAgreement(t: Table, u: Table, op: Operation)
    requires AgreeOn(t, u, op.id)
    ensures AgreeOn(Apply(t, op), Apply(u, op), op.id)
  {
    hide CallbacksOn, Wrap32;
    if op.OpReport? && op.id in t.cells {
      var fired := Apply(t, op).fired;
      if fired != t.fired {
        CallbackAppended(t.fired, fired[|t.fired|], op.id);
        CallbackAppended(u.fired, fired[|t.fired|], op.id);
      }
    }
  }

  lemma ForeignOperationIsInvisible(t: Table, op: Operation, id: int64)
    requires op.id != id
    ensures AgreeOn(Apply(t, op), t, id)
  {
    hide CallbacksOn, Wrap32;
    if op.OpReport? && op.id in t.cells {
      var fired := Apply(t, op).fired;
      if fired != t.fired {
        CallbackAppended(t.fired, fired[|t.fired|], id);
      }
    }
  }

  /** What happens to one ID in a run is what happens when only its own operations run. */
  lemma {:induction false} IdsAreIndependent(t: Table, ops: seq<Operation>, id: int64)
    ensures AgreeOn(Run(t, ops), Run(t, OpsOn(ops, id)), id)
  {
    if ops != [] {
      var op, before := ops[|ops| - 1], ops[..|ops| - 1];
      IdsAreIndependent(t, before, id);
      var own := OpsOn(before, id);
      if op.id == id {
        assert (own + [op])[..|own|] == own;
        OwnOperationKeepsAgreement(Run(t, before), Run(t, own), op);
      } else {
        assert own + [] == own;
        ForeignOperationIsInvisible(Run(t, before), op, id);
      }
    }
  }

  /** Re-initialising a live ID drops its counter: the reports of the second round alone fire
      the callback, and those of the first are then lost. */
  lemma ReInitForgets(t: Table, id: int64, first: int32, second: int32, late: int32, fails: bool)
    requires second > 0
    ensures var after := t.Init(id, first).Init(id, second).Report(id, false, second);
            after.fired == t.fired + [Completed(id)] && after.Report(id, fails, late) == after
  {
  }

  /** A count beyond int32 is stored truncated. Then the first report completes the message at
      once, unless it makes the counter wrap back to what is really left. */
  lemma TruncatedCountCompletesEarly(t: Table, id: int64, targets: nat, n: int32)
    requires TWO_31 <= targets <= TWO_32 && n > 0
    ensures var after := t.Init(id, Wrap32(targets)).Report(id, false, n);
            if n <= targets - TWO_31 then after.fired == t.fired + [Completed(id)]
            else after.fired == t.fired && id in after.cells && after.cells[id].pending == targets - n
  {
    assert Wrap32(targets) == targets - TWO_32;
  }

  /** Only reports on `id`, each of at least one target. */
  predicate ReportsOn(ops: seq<Operation>, id: int64) {
    forall k | 0 <= k < |ops| :: ops[k].OpReport? && ops[k].id == id && ops[k].n > 0
  }

  function Reported(ops: seq<Operation>): int {
    if ops == [] then 0 else Reported(ops[..|ops| - 1]) + if ops[|ops| - 1].OpReport? then ops[|ops| - 1].n else 0
  }

  function Failures(ops: seq<Operation>): int {
    if ops == [] then 0
    else Failures(ops[..|ops| - 1]) + if ops[|ops| - 1].OpReport? && ops[|ops| - 1].fails then ops[|ops| - 1].n else 0
  }

  function Counting(id: int64, targets: nat): Table {
    Table(map[id := Cell(Wrap32(targets), 0)], [])
  }

  /** Up to 2^31 targets the counter holds what is left, even if that did not fit at first. */
  lemma {:induction false} CountsDown(id: int64, targets: nat, ops: seq<Operation>)
    requires targets <= TWO_31 && ReportsOn(ops, id) && Reported(ops) < targets
    ensures var t := Run(Counting(id, targets), ops);
            && t.fired == [] && t.cells.Keys == {id}
            && t.cells[id].pending == (if ops == [] then Wrap32(targets) else targets - Reported(ops))
            && t.cells[id].failed == Failures(ops) && 0 <= Failures(ops) <= Reported(ops)
            && (ops == [] || Reported(ops) > 0)
  {
    if ops != [] { CountsDown(id, targets, ops[..|ops| - 1]); }
  }

  /** The last report forgets the counter and fires one callback: the failure callback with the
      number of failed targets if there are any, the completion otherwise. */
  lemma LastReportDecides(id: int64, targets: nat, ops: seq<Operation>)
    requires 0 < targets <= TWO_31 && ReportsOn(ops, id) && Reported(ops) == targets
    ensures var t, failures := Run(Counting(id, targets), ops), Failures(ops);
            && t.cells == map[] && 0 <= failures <= targets
            && t.fired == [if failures > 0 then Failed(id, Wrap32(failures)) else Completed(id)]
  {
    var before, last := ops[..|ops| - 1], ops[|ops| - 1];
    CountsDown(id, targets, before);
    assert last.n > 0;
    assert Run(Counting(id, targets), before).cells - {id} == map[];
  }

  /** Reports that add up to less than a larger number of targets, and already fire. */
  function Early(id: int64, targets: nat): seq<Operation> {
    var stored := Wrap32(targets);
    if stored > 0 then [OpReport(id, false, stored)]
    else if stored > -TWO_31 then [OpReport(id, false, 1)]
    else [OpReport(id, false, 1), OpReport(id, false, TWO_31 - 1)]
  }

  lemma EarlyFires(id: int64, targets: nat)
    requires targets > TWO_31
    ensures ReportsOn(Early(id, targets), id) && Reported(Early(id, targets)) < targets
    ensures Run(Counting(id, targets), Early(id, targets)).fired == [Completed(id)]
  {
    var ops := Early(id, targets);
    var n := |ops| - 1;
    if n == 1 {
      assert ops[..1] == [OpReport(id, false, 1)] && ops[..1][..0] == [];
      assert Reported(ops[..1]) == 1;
      assert Run(Counting(id, targets), ops[..1]) == Counting(id, targets).Report(id, false, 1);
    } else {
      assert ops[..n] == [];
    }
  }

  /** The counter waits for all reports, whatever their sizes, if and only if there are at most
      2^31 targets: a larger count is stored truncated. */
  lemma WaitsForAllExactly(id: int64, targets: nat)
    ensures (forall ops | ReportsOn(ops, id) && Reported(ops) < targets :: Run(Counting(id, targets), ops).fired == [])
            <==> targets <= TWO_31
  {
    hide Run, Counting;
    if targets > TWO_31 {
      EarlyFires(id, targets);
    } else {
      forall ops | ReportsOn(ops, id) && Reported(ops) < targets ensures Run(Counting(id, targets), ops).fired == [] {
        CountsDown(id, targets, ops);
      }
    }
  }

  class PendingState {
    var pending: int32
    var failed: int32

    constructor (count: int32)
      ensures pending == count && failed == 0
    {
      pending, failed := count, 0;
    }
  }

  class PendingManager {
    ghost var Contents: Table
    const shards: array<map<int64, PendingState>>
    var fired: seq<Callback>

    ghost function Cells(): set<PendingState>
      reads shards
    {
      set s, id | 0 <= s < shards.Length && id in shards[s] :: shards[s][id]
    }

    ghost predicate Valid()
      reads this, shards, Cells()
    {
      && shards.Length == SHARD_COUNT
      && Contents.fired == fired
      && (forall s, id | 0 <= s < SHARD_COUNT && id in shards[s] :: ShardIndex(id) == s)
      && (forall id: int64 {:trigger ShardIndex(id)} | 0 <= ShardIndex(id) < SHARD_COUNT ::
            && (id in Contents.cells <==> id in shards[ShardIndex(id)])
            && (id in Contents.cells ==>
                  var state := shards[ShardIndex(id)][id];
                  Contents.cells[id] == Cell(state.pending, state.failed)))
      && (forall s, id, t, jd | 0 <= s < SHARD_COUNT && 0 <= t < SHARD_COUNT && id in shards[s] && jd in shards[t] ::
            id != jd ==> shards[s][id] != shards[t][jd])
    }

    constructor ()
      ensures Valid() && fresh(shards) && Contents == Table(map[], [])
    {
      shards := new map<int64, PendingState>[SHARD_COUNT](_ => map[]);
      fired := [];
      Contents := Table(map[], []);
    }

    method Init(id: int64, count: int32)
      requires Valid()
      modifies this, shards
      ensures Valid() && fresh(Cells() - old(Cells()))
      ensures Contents == old(Contents).Init(id, count)
      ensures Contents == Table(old(Contents).cells[id := Cell(count, 0)], old(fired)) && fired == old(fired)
    {
      ShardIndexInRange(id);
      var s := ShardIndex(id);
      var state := new PendingState(count);
      shards[s] := shards[s][id := state];
      Contents := Contents.Init(id, count);
    }

    method DoneN(id: int64, n: int32)
      requires Valid()
      modifies this, shards, Cells()
      ensures Valid() && fresh(Cells() - old(Cells()))
      ensures Contents == old(Contents).Report(id, false, n)
    {
      ShardIndexInRange(id);
      var s := ShardIndex(id);
      if id !in shards[s] { return; }
      var state := shards[s][id];
      state.pending := Wrap32(state.pending + Wrap32(-(n as int)));
      Contents := Contents.Report(id, false, n);
      if state.pending > 0 { return; }
      shards[s] := shards[s] - {id};
      if state.failed > 0 {
        fired := fired + [Failed(id, state.failed)];
      } else {
        fired := fired + [Completed(id)];
      }
    }

    method FailN(id: int64, n: int32)
      requires Valid()
      modifies this, shards, Cells()
      ensures Valid() && fresh(Cells() - old(Cells()))
      ensures Contents == old(Contents).Report(id, true, n)
    {
      ShardIndexInRange(id);
      var s := ShardIndex(id);
      if id !in shards[s] { return; }
      var state := shards[s][id];
      state.failed := Wrap32(state.failed + n);
      state.pending := Wrap32(state.pending + Wrap32(-(n as int)));
      Contents := Contents.Report(id, true, n);
      if state.pending > 0 { return; }
      shards[s] := shards[s] - {id};
      fired := fired + [Failed(id, state.failed)];
    }

    method Delete(id: int64)
      requires Valid()
      modifies this, shards
      ensures Valid() && fresh(Cells() - old(Cells()))
      ensures Contents == old(Contents).Delete(id)
      ensures Contents.cells == old(Contents).cells - {id} && fired == old(fired)
    {
      ShardIndexInRange(id);
      var s := ShardIndex(id);
      shards[s] := shards[s] - {id};
      Contents := Contents.Delete(id);
    }
  }
}
