/** What has become of the copies of a message, read off the actions of a run of GatewaySpec
    alone: which were delivered, which went astray, and what that makes of the counters. */
module GatewayHistory {
  import opened GoInt
  import opened Messages
  import opened GatewayDelivery
  import opened GatewaySpec
  import opened Wrappers
  import P = PendingTask

  // ---------- What an action does to a copy ----------

  /** The message and user of a copy. */
  datatype Copy = Copy(id: int64, user: int64)

  function CopyFor(r: Request, user: int64): Option<Copy> {
    if r.Push? then Some(Copy(r.msg.id, user)) else None
  }

  /** The request that a socket write or a push-back decides about, and its user. */
  function Decides(g: Gateway, a: Action): Option<Copy> {
    if g.crashed then None
    else match a
      case Write(h, _) =>
        if h < |g.conns| && g.conns[h].writer.Writing? then CopyFor(g.conns[h].writer.r, g.conns[h].user) else None
      case Advance(i, _) =>
        if i >= |g.ops| then None
        else (match g.ops[i]
              case Refused(user, r, _) => CopyFor(r, user)
              case Leaving(user, _, hand, _, stage) =>
                if stage.HandingBack? && hand != [] then CopyFor(hand[0], user) else None
              case _ => None)
      case _ => None
  }

  /** A copy that is written to its user's socket, or that the send service accepts back. */
  function DeliversCopy(g: Gateway, a: Action): Option<Copy> {
    if (a.Write? && a.ok) || (a.Advance? && a.choice.Works?) then Decides(g, a) else None
  }

  /** A copy that a failed write, push-back or RPUSH, or an element that does not decode, loses. */
  function LosesCopy(g: Gateway, a: Action): Option<Copy> {
    if (a.Write? && !a.ok) || (a.Advance? && !a.choice.Works? && Decides(g, a).Some?) then Decides(g, a)
    else if g.crashed || !a.Advance? || a.op >= |g.ops| then None
    else match g.ops[a.op]
      case Pushing(user, r, _) => if a.choice.Works? then None else CopyFor(r, user)
      case Popping(user) =>
        if a.choice.Garbled? && user in g.waiting && g.waiting[user] != [] then CopyFor(g.waiting[user][0], user) else None
      case _ => None
  }

  // ---------- What a run has done ----------

  /** The action makes `id` a new message. */
  predicate Opens(g: Gateway, a: Action, id: int64) {
    !g.crashed && a.DoOpen? && a.msg.body.id == id
  }

  function Users(copy: Option<Copy>, id: int64): multiset<int64> {
    if copy.Some? && copy.value.id == id then multiset{copy.value.user} else multiset{}
  }

  /** The targets of the message last opened under `id`. */
  ghost function OpenedFor(actions: seq<Action>, id: int64): multiset<int64> {
    if actions == [] then multiset{}
    else
      var before, a := actions[..|actions| - 1], actions[|actions| - 1];
      if Opens(Run(before), a, id) then multiset(a.msg.targets) else OpenedFor(before, id)
  }

  /** The users that a copy of `id` was delivered for since it was last opened. */
  ghost function DeliveredFor(actions: seq<Action>, id: int64): multiset<int64> {
    if actions == [] then multiset{}
    else
      var before, a := actions[..|actions| - 1], actions[|actions| - 1];
      if Opens(Run(before), a, id) then multiset{} else DeliveredFor(before, id) + Users(DeliversCopy(Run(before), a), id)
  }

  /** The users whose copy was lost since then; all of them if the message could not be
      serialized. */
  ghost function LostFor(actions: seq<Action>, id: int64): multiset<int64> {
    if actions == [] then multiset{}
    else
      var before, a := actions[..|actions| - 1], actions[|actions| - 1];
      if Opens(Run(before), a, id) then if a.marshals then multiset{} else multiset(a.msg.targets)
      else LostFor(before, id) + Users(LosesCopy(Run(before), a), id)
  }

  // ---------- The record of a step ----------

  /** The lists of users grow by the copy, if there is one. */
  ghost predicate Adds(m: map<int64, seq<int64>>, m': map<int64, seq<int64>>, copy: Option<Copy>) {
    forall id: int64 :: multiset(Get(m', id)) == multiset(Get(m, id)) + Users(copy, id)
  }

  /** The records and counters after an action that starts no message: a delivered copy is
      reported done once, and nothing else touches the counters. */
  ghost predicate RecordsStep(r: Records, r': Records, delivered: Option<Copy>, lost: Option<Copy>) {
    && r'.targets == r.targets
    && r'.table == (if delivered.Some? then r.table.Report(delivered.value.id, false, 1) else r.table)
    && Adds(r.delivered, r'.delivered, delivered) && Adds(r.astray, r'.astray, lost)
  }

  lemma NothingAdded(m: map<int64, seq<int64>>)
    ensures Adds(m, m, None)
  {
  }

  lemma OneAdded(m: map<int64, seq<int64>>, id: int64, user: int64)
    ensures Adds(m, m[id := Get(m, id) + [user]], Some(Copy(id, user)))
  {
  }

  lemma NothingRecorded(r: Records)
    ensures RecordsStep(r, r, None, None)
  {
  }

  lemma FateRecorded(records: Records, user: int64, r: Request, ok: bool)
    ensures RecordsStep(records, Fate(records, user, r, ok), if ok then CopyFor(r, user) else None,
                        if ok then None else CopyFor(r, user))
  {
    hide Get, P.Table.Report, Adds;
    NothingAdded(records.delivered);
    NothingAdded(records.astray);
    if r.Push? {
      OneAdded(records.delivered, r.msg.id, user);
      OneAdded(records.astray, r.msg.id, user);
    }
  }

  lemma LeaveRecords(g: Gateway, i: nat, user: int64, h: nat, hand: seq<Request>, why: Why, stage: Stage, choice: Choice)
    requires i < |g.ops| && h < |g.conns|
    ensures var g' := Leave(g, i, user, h, hand, why, stage, choice);
            if stage.HandingBack? && hand != [] then g'.records == Fate(g.records, user, hand[0], choice.Works?)
            else g'.records == g.records
  {
    hide Fate;
  }

  lemma AdvanceRecords(g: Gateway, i: nat, choice: Choice)
    requires Refs(g) && !g.crashed && i < |g.ops|
    ensures var a := Advance(i, choice);
            RecordsStep(g.records, AdvanceOp(g, i, choice).records, DeliversCopy(g, a), LosesCopy(g, a))
  {
    hide Refs, OpRefers, Fate, RecordsStep, Leave;
    assert OpRefers(g.ops[i], g.conns) by { OpIsReferred(g, i); }
    OpReferences(g.ops[i], g.conns);
    NothingRecorded(g.records);
    match g.ops[i]
    case Refused(user, r, _) => FateRecorded(g.records, user, r, choice.Works?);
    case Pushing(user, r, _) => FateRecorded(g.records, user, r, false);
    case Popping(user) =>
      if Get(g.waiting, user) != [] { FateRecorded(g.records, user, Get(g.waiting, user)[0], false); }
    case Arriving(user, _) => StoreRefers(g, user);
    case Leaving(user, h, hand, why, stage) =>
      LeaveRecords(g, i, user, h, hand, why, stage, choice);
      if hand != [] { FateRecorded(g.records, user, hand[0], choice.Works?); }
    case _ =>
  }

  lemma StepRecords(g: Gateway, a: Action)
    requires Refs(g) && (a.DoOpen? ==> g.crashed)
    ensures RecordsStep(g.records, Step(g, a).records, DeliversCopy(g, a), LosesCopy(g, a))
  {
    hide Refs, AdvanceOp, Fate, RecordsStep;
    NothingRecorded(g.records);
    if !g.crashed {
      match a
      case Advance(i, choice) => if i < |g.ops| { AdvanceRecords(g, i, choice); }
      case Write(h, ok) => if CanWrite(g, h) { FateRecorded(g.records, g.conns[h].user, g.conns[h].writer.r, ok); }
      case _ =>
    }
  }

  // ---------- Main results ----------

  /** What opening a message sets, for its own ID and for others. */
  ghost predicate OpenedAs(r: Records, r': Records, msg: PushMessage, marshals: bool, id: int64) {
    if id == msg.body.id then
      && Get(r'.targets, id) == msg.targets && Get(r'.delivered, id) == []
      && Get(r'.astray, id) == if marshals then [] else msg.targets
    else
      && Get(r'.targets, id) == Get(r.targets, id) && Get(r'.delivered, id) == Get(r.delivered, id)
      && Get(r'.astray, id) == Get(r.astray, id)
  }

  lemma OpenedRecords(r: Records, msg: PushMessage, marshals: bool, id: int64)
    ensures OpenedAs(r, Opened(r, msg, marshals), msg, marshals, id)
  {
    hide P.Table.Init, Wrap32;
  }

  lemma OpenRecords(g: Gateway, a: Action, id: int64)
    requires Refs(g) && a.DoOpen? && !g.crashed
    ensures Step(g, a).records.table == g.records.table.Init(a.msg.body.id, Wrap32(|a.msg.targets|))
    ensures OpenedAs(g.records, Step(g, a).records, a.msg, a.marshals, id)
  {
    hide Refs, Wrap32, P.Table.Init, OpenedAs;
    OpenedRecords(g.records, a.msg, a.marshals, id);
  }

  /** In every run the records of a message are what the actions since its opening have done:
      its targets, the users that a copy was delivered for, and those whose copy was lost. */
  lemma {:induction false} HistoryExactly(actions: seq<Action>, id: int64)
    ensures var r := Run(actions).records;
            && multiset(Get(r.targets, id)) == OpenedFor(actions, id)
            && multiset(Get(r.delivered, id)) == DeliveredFor(actions, id)
            && multiset(Get(r.astray, id)) == LostFor(actions, id)
  {
    hide Step, Refs, DeliversCopy, LosesCopy, Users, Get, P.Table.Report;
    if actions == [] {
      NoRecords(id);
    } else {
      var before, a := actions[..|actions| - 1], actions[|actions| - 1];
      HistoryExactly(before, id);
      if a.DoOpen? && !Run(before).crashed {
        OpenRecords(Run(before), a, id);
        OpeningDecidesNothing(Run(before), a, id);
      } else {
        StepRecords(Run(before), a);
      }
    }
  }

  lemma NoRecords(id: int64)
    ensures var r := Run([]).records; Get(r.targets, id) == Get(r.delivered, id) == Get(r.astray, id) == []
  {
  }

  lemma OpeningDecidesNothing(g: Gateway, a: Action, id: int64)
    requires a.DoOpen?
    ensures Users(DeliversCopy(g, a), id) == multiset{} == Users(LosesCopy(g, a), id)
  {
  }

  /** Conservation without the records: in every run a live message's counter is the number of
      its targets less the copies that were written to a socket or accepted back since it was
      opened; each of the others is in exactly one channel, writer, operation or wait list, or
      was lost. */
  lemma CountersCountDeliveries(actions: seq<Action>, id: int64)
    requires FreshRun(actions) && id in Run(actions).records.table.cells
    ensures var g := Run(actions);
            && DeliveredFor(actions, id) <= OpenedFor(actions, id)
            && g.records.table.cells[id].pending == |OpenedFor(actions, id)| - |DeliveredFor(actions, id)|
            && (forall u: int64 :: OpenedFor(actions, id)[u] ==
                  DeliveredFor(actions, id)[u] + InFlight(g, id, u) + LostFor(actions, id)[u])
  {
    hide Run, InFlight, OpenedFor, DeliveredFor, LostFor;
    CopiesAreConserved(actions, id);
    HistoryExactly(actions, id);
    var t, d := OpenedFor(actions, id), DeliveredFor(actions, id);
    assert t == d + (t - d);
    forall u: int64 ensures t[u] == d[u] + InFlight(Run(actions), id, u) + LostFor(actions, id)[u] {
      assert (t - d)[u] == t[u] - d[u];
    }
  }

  /** An action completes a message only if it writes a copy to a socket or has one accepted
      back, and every copy has been by then. A failed write completes nothing. */
  lemma CompletedMeansWritten(actions: seq<Action>, a: Action, j: nat)
    requires FreshRun(actions + [a])
    requires |Run(actions).records.table.fired| <= j < |Run(actions + [a]).records.table.fired|
    ensures var id := Run(actions + [a]).records.table.fired[j].id;
            && Run(actions + [a]).records.table.fired[j] == P.Completed(id)
            && DeliversCopy(Run(actions), a).Some? && DeliversCopy(Run(actions), a).value.id == id
            && DeliveredFor(actions + [a], id) == OpenedFor(actions + [a], id)
  {
    hide Run, FreshRun, Step, Refs, OpenedFor, DeliveredFor, LostFor, DeliversCopy, LosesCopy, P.Table.Report;
    CompletionMeansDelivered(actions, a);
    RunOnce(actions, a);
    HistoryExactly(actions + [a], Run(actions + [a]).records.table.fired[j].id);
    FiredByDelivery(Run(actions), a, j);
  }

  lemma ReportFires(t: P.Table, id: int64, j: nat)
    requires |t.fired| <= j < |t.Report(id, false, 1).fired|
    ensures t.Report(id, false, 1).fired[j].id == id
  {
  }

  lemma FiredByDelivery(g: Gateway, a: Action, j: nat)
    requires Refs(g) && |g.records.table.fired| <= j < |Step(g, a).records.table.fired|
    ensures DeliversCopy(g, a).Some? && DeliversCopy(g, a).value.id == Step(g, a).records.table.fired[j].id
  {
    hide Refs, Step, DeliversCopy, LosesCopy, P.Table.Report;
    if a.DoOpen? && !g.crashed {
      OpenRecords(g, a, a.msg.body.id);
    } else {
      StepRecords(g, a);
      if DeliversCopy(g, a).Some? { ReportFires(g.records.table, DeliversCopy(g, a).value.id, j); }
    }
  }

  /** A write to a socket that fails, and a push-back that is refused, leave every counter as it
      was and lose the copy. */
  lemma FailuresReportNothing(g: Gateway, a: Action)
    requires Refs(g) && Decides(g, a).Some? && ((a.Write? && !a.ok) || (a.Advance? && !a.choice.Works?))
    ensures var r, r' := g.records, Step(g, a).records;
            && r'.table == r.table
            && multiset(Get(r'.astray, Decides(g, a).value.id)) ==
               multiset(Get(r.astray, Decides(g, a).value.id)) + multiset{Decides(g, a).value.user}
  {
    hide Refs, Step;
    StepRecords(g, a);
  }
}
