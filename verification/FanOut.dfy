/** The dispatcher, its workers and the pending manager together: one message, from
    Dispatch_gateway to the callback, with every interleaving of the participants' work
    and of the atomic actions inside their `DoneN`/`FailN` calls. */
module FanOut {
  import opened GoInt
  import opened Messages
  import opened SendDispatch
  import I = PendingInterleaving
  import P = PendingTask

  /** Participant `who` does its next piece of work, or call `call` its next atomic action. */
  datatype Move = Work(who: nat) | Advance(call: nat)

  datatype System = System(work: Progress, actions: seq<I.Action>)

  /** Batches enter the channel only after Init, so workers wait for the dispatcher's first event. */
  predicate MayWork(parts: seq<seq<Event>>, p: Progress, who: nat)
    requires |p.next| == |parts|
  {
    && who < |parts| && p.next[who] < |parts[who]|
    && (who == 0 || p.next[0] > 0)
  }

  /** Work on the pending manager starts a call; it then advances action by action. */
  function ActionsOf(e: Event): seq<I.Action> {
    match e
    case Opened(id, count) => [I.Init(id, count)]
    case Reported(id, fails, n) => [I.Issue(id, fails, n)]
    case _ => []
  }

  ghost predicate InRange(parts: seq<seq<Event>>, s: System) {
    |s.work.next| == |parts| && forall k | 0 <= k < |parts| :: s.work.next[k] <= |parts[k]|
  }

  function Next(parts: seq<seq<Event>>, s: System, move: Move): (s': System)
    requires InRange(parts, s)
    ensures InRange(parts, s')
  {
    match move
    case Advance(i) => s.(actions := s.actions + [I.Advance(i)])
    case Work(k) =>
      if MayWork(parts, s.work, k) then
        var e := parts[k][s.work.next[k]];
        System(Progress(s.work.next[k := s.work.next[k] + 1], s.work.emitted + [e]), s.actions + ActionsOf(e))
      else s
  }

  function Run(parts: seq<seq<Event>>, moves: seq<Move>): (s: System)
    ensures InRange(parts, s)
  {
    if moves == [] then System(Progress(Zeros(|parts|), []), [])
    else Next(parts, Run(parts, moves[..|moves| - 1]), moves[|moves| - 1])
  }

  /** The order in which the participants worked, with the idle moves left out. */
  function ScheduleOf(parts: seq<seq<Event>>, moves: seq<Move>): seq<nat> {
    if moves == [] then []
    else
      var before := moves[..|moves| - 1];
      match moves[|moves| - 1]
      case Advance(_) => ScheduleOf(parts, before)
      case Work(k) => ScheduleOf(parts, before) + if MayWork(parts, Run(parts, before).work, k) then [k] else []
  }

  lemma PlayOnce(parts: seq<seq<Event>>, schedule: seq<nat>, k: nat)
    requires MayWork(parts, Play(parts, schedule), k)
    ensures var p := Play(parts, schedule);
            Play(parts, schedule + [k]) ==
            Progress(p.next[k := p.next[k] + 1], p.emitted + [parts[k][p.next[k]]])
  {
    hide Zeros;
    var longer := schedule + [k];
    assert longer[..|longer| - 1] == schedule && longer[|longer| - 1] == k;
  }

  lemma {:induction false} WorkIsPlay(parts: seq<seq<Event>>, moves: seq<Move>)
    ensures Run(parts, moves).work == Play(parts, ScheduleOf(parts, moves))
  {
    hide Play, ActionsOf;
    if moves == [] {
      NothingPlayed(parts);
    } else {
      var before, move := moves[..|moves| - 1], moves[|moves| - 1];
      WorkIsPlay(parts, before);
      var schedule := ScheduleOf(parts, before);
      if move.Work? && MayWork(parts, Run(parts, before).work, move.who) {
        PlayOnce(parts, schedule, move.who);
      } else {
        assert schedule + [] == schedule;
      }
    }
  }

  lemma NothingPlayed(parts: seq<seq<Event>>)
    ensures Play(parts, []) == Progress(Zeros(|parts|), [])
  {
  }

  // ---------- The system keeps the promises the counters need ----------

  /** The machine has run exactly what the log says: nothing before the dispatcher's Init,
      and afterwards one counter carrying every report made so far. */
  ghost predicate Tracks(parts: seq<seq<Event>>, s: System, msg: PushMessage)
    requires parts != [] && |s.work.next| == |parts|
  {
    var m, a := I.Run(s.actions), Balance(s.work.emitted);
    && I.PromisedRun(s.actions)
    && (s.work.next[0] == 0 ==> m.cells == [] && m.calls == [] && m.table == map[] && a.done == 0 && a.failed == 0)
    && (s.work.next[0] > 0 ==>
          && |m.cells| == 1 && m.cells[0].id == msg.body.id && m.cells[0].total == |msg.targets|
          && I.Tally(I.Issued, 0, m.calls) == a.done + a.failed
          && I.Tally(I.FailuresIssued, 0, m.calls) == a.failed)
  }

  lemma OneMoreAction(actions: seq<I.Action>, a: I.Action)
    ensures I.Run(actions + [a]) == I.Step(I.Run(actions), a)
    ensures I.PromisedRun(actions + [a]) <==> I.PromisedRun(actions) && I.Promised(I.Run(actions), a)
  {
    assert (actions + [a])[..|actions|] == actions;
  }

  /** Advancing a call changes neither the counters' identity nor what was issued. */
  lemma AdvanceKeepsIssued(s: I.State, i: nat)
    requires I.Refs(s)
    ensures var s' := I.Step(s, I.Advance(i));
            && |s'.cells| == |s.cells| && |s'.calls| == |s.calls|
            && (s.calls == [] ==> s' == s)
            && (forall r | 0 <= r < |s.cells| :: s'.cells[r].id == s.cells[r].id && s'.cells[r].total == s.cells[r].total)
            && I.Tally(I.Issued, 0, s'.calls) == I.Tally(I.Issued, 0, s.calls)
            && I.Tally(I.FailuresIssued, 0, s'.calls) == I.Tally(I.FailuresIssued, 0, s.calls)
  {
    hide Wrap32;
    var s' := I.Step(s, I.Advance(i));
    if i < |s.calls| {
      assert s'.calls == s.calls[i := s'.calls[i]];
      I.TallyUpdate(I.Issued, 0, s.calls, i, s'.calls[i]);
      I.TallyUpdate(I.FailuresIssued, 0, s.calls, i, s'.calls[i]);
    }
  }

  lemma AdvanceTracks(parts: seq<seq<Event>>, s: System, msg: PushMessage, i: nat)
    requires parts != [] && |s.work.next| == |parts| && Tracks(parts, s, msg)
    ensures Tracks(parts, s.(actions := s.actions + [I.Advance(i)]), msg)
  {
    OneMoreAction(s.actions, I.Advance(i));
    AdvanceKeepsIssued(I.Run(s.actions), i);
  }

  /** With room for another report the counter is still in the map. */
  lemma RoomMeansLive(s: I.State, n: int32)
    requires I.Inv(s) && |s.cells| == 1 && n > 0
    requires I.Tally(I.Issued, 0, s.calls) + n <= s.cells[0].total
    ensures s.cells[0].id in s.table && s.table[s.cells[0].id] == 0
  {
    I.RoomMeansPending(s, 0, n);
    assert I.CellInv(s, 0);
    I.CountsArePositive(s);
    I.SubtractedAtMostIssued(0, s.calls);
  }

  lemma ReportTracks(parts: seq<seq<Event>>, s: System, s': System, msg: PushMessage, e: Event)
    requires parts != [] && |s.work.next| == |parts| == |s'.work.next| && Tracks(parts, s, msg)
    requires s.work.next[0] > 0 && s'.work.next[0] > 0
    requires e.Reported? && e.id == msg.body.id && e.n > 0
    requires s'.work.emitted == s.work.emitted + [e] && s'.actions == s.actions + [I.Issue(e.id, e.fails, e.n)]
    requires Balance(s'.work.emitted).done + Balance(s'.work.emitted).failed <= |msg.targets|
    ensures Tracks(parts, s', msg)
  {
    hide Balance, NeverAhead;
    var m := I.Run(s.actions);
    var m' := I.Run(s'.actions);
    OneMoreAction(s.actions, I.Issue(e.id, e.fails, e.n));
    Appended(s.work.emitted, e);
    I.RunKeepsInv(s.actions);
    RoomMeansLive(m, e.n);
    I.TallyAppend(I.Issued, 0, m.calls, m'.calls[|m.calls|]);
    I.TallyAppend(I.FailuresIssued, 0, m.calls, m'.calls[|m.calls|]);
  }

  lemma EventShape(parts: seq<seq<Event>>, msg: PushMessage, admit: nat -> bool, k: nat, j: nat)
    requires |msg.targets| < TWO_31 && Handles(parts, msg, admit) && k < |parts| && j < |parts[k]|
    ensures var e := parts[k][j];
            if k == 0 && j == 0 then e == Opened(msg.body.id, |msg.targets|)
            else !e.Opened? && (e.Reported? ==> e.id == msg.body.id && e.n > 0)
  {
    if k > 0 {
      assert Settles(parts[(k - 1) + 1], msg.body, multiset(Admitted(msg.targets, admit, 0)[k - 1]));
      assert parts[k][j] in parts[k] && Proper(parts[k][j], msg.body);
    }
  }

  lemma WorkTracks(parts: seq<seq<Event>>, s: System, msg: PushMessage, admit: nat -> bool, k: nat, s': System)
    requires |msg.targets| < TWO_31 && Handles(parts, msg, admit)
    requires |s.work.next| == |parts| && Tracks(parts, s, msg) && MayWork(parts, s.work, k)
    requires var e := parts[k][s.work.next[k]];
             s' == System(Progress(s.work.next[k := s.work.next[k] + 1], s.work.emitted + [e]), s.actions + ActionsOf(e))
    requires Balance(s'.work.emitted).done + Balance(s'.work.emitted).failed <= |msg.targets|
    ensures Tracks(parts, s', msg)
  {
    hide Balance, NeverAhead, Handles, Tracks;
    var e := parts[k][s.work.next[k]];
    EventShape(parts, msg, admit, k, s.work.next[k]);
    if e.Reported? {
      ReportTracks(parts, s, s', msg, e);
    } else if e.Opened? {
      OpenTracks(parts, s, s', msg, e);
    } else {
      PlacingTracks(parts, s, s', msg, e);
    }
  }

  lemma OpenTracks(parts: seq<seq<Event>>, s: System, s': System, msg: PushMessage, e: Event)
    requires parts != [] && |s.work.next| == |parts| == |s'.work.next| && Tracks(parts, s, msg)
    requires s.work.next[0] == 0 && s'.work.next[0] > 0
    requires |msg.targets| < TWO_31 && e == Opened(msg.body.id, |msg.targets|)
    requires s'.work.emitted == s.work.emitted + [e] && s'.actions == s.actions + [I.Init(e.id, e.count)]
    ensures Tracks(parts, s', msg)
  {
    hide Balance, NeverAhead;
    Appended(s.work.emitted, e);
    OneMoreAction(s.actions, I.Init(e.id, e.count));
    assert I.Run(s'.actions).calls == [];
  }

  lemma PlacingTracks(parts: seq<seq<Event>>, s: System, s': System, msg: PushMessage, e: Event)
    requires parts != [] && |s.work.next| == |parts| == |s'.work.next| && Tracks(parts, s, msg)
    requires s.work.next[0] > 0 && s'.work.next[0] > 0
    requires !e.Opened? && !e.Reported?
    requires s'.work.emitted == s.work.emitted + [e] && s'.actions == s.actions + []
    ensures Tracks(parts, s', msg)
  {
    hide Balance, NeverAhead, I.Run;
    Appended(s.work.emitted, e);
    assert s.actions + [] == s.actions;
  }

  lemma {:induction false} RunTracks(parts: seq<seq<Event>>, moves: seq<Move>, msg: PushMessage, admit: nat -> bool)
    requires |msg.targets| < TWO_31 && Handles(parts, msg, admit)
    ensures parts != [] && Tracks(parts, Run(parts, moves), msg)
  {
    hide Handles, Tracks, Balance;
    if moves == [] {
      StartTracks(parts, msg, admit);
    } else {
      var before := moves[..|moves| - 1];
      var s := Run(parts, before);
      RunTracks(parts, before, msg, admit);
      match moves[|moves| - 1]
      case Advance(i) =>
        AdvanceTracks(parts, s, msg, i);
      case Work(k) =>
        WorkIsPlay(parts, moves);
        ReportsAddUp(msg, admit, parts, ScheduleOf(parts, moves));
        if MayWork(parts, s.work, k) {
          WorkTracks(parts, s, msg, admit, k, Run(parts, moves));
        }
    }
  }

  lemma StartTracks(parts: seq<seq<Event>>, msg: PushMessage, admit: nat -> bool)
    requires Handles(parts, msg, admit)
    ensures parts != [] && Tracks(parts, Run(parts, []), msg)
  {
    EmptyBalance();
  }

  // ---------- Main results ----------

  /** Nothing is assumed about the calls on the pending manager: the dispatcher and its
      workers keep the promises by themselves. Hence at most one callback fires for the
      message, and if the acknowledging one does, every target position had by then been
      handed over, and nothing was reported failed. */
  lemma AcknowledgedMeansHandedOver(parts: seq<seq<Event>>, moves: seq<Move>, msg: PushMessage, admit: nat -> bool)
    requires |msg.targets| < TWO_31 && Handles(parts, msg, admit)
    ensures var s := Run(parts, moves);
            var fired := I.Run(s.actions).fired;
            && |fired| <= 1
            && (forall e | e in fired :: e.callback.Completed? ==>
                  e.callback.id == msg.body.id && Balance(s.work.emitted).handed == multiset(msg.targets))
  {
    hide Balance, Handles;
    var s := Run(parts, moves);
    RunTracks(parts, moves, msg, admit);
    SingleCounter(parts, s, msg);
    forall e | e in I.Run(s.actions).fired && e.callback.Completed?
      ensures e.callback.id == msg.body.id && Balance(s.work.emitted).handed == multiset(msg.targets)
    {
      CompletedMeansAllDone(parts, s, msg, e);
      WorkIsPlay(parts, moves);
      AllDoneMeansAllHanded(msg, admit, parts, ScheduleOf(parts, moves));
    }
  }

  /** Each worker met the given faults, which decide where its copies go. */
  ghost predicate UnderFaults(parts: seq<seq<Event>>, msg: PushMessage, admit: nat -> bool, faults: seq<Faults>) {
    var batches := Admitted(msg.targets, admit, 0);
    && Handles(parts, msg, admit) && |faults| == |batches|
    && (forall k | 0 <= k < |batches| :: Balance(parts[k + 1]).parked == multiset(ParkedIn(batches[k], faults[k])))
    && (forall k | 0 <= k < |batches| :: CopiesAreDue(parts[k + 1], batches[k], msg.body, faults[k]))
  }

  ghost predicate NobodyParks(msg: PushMessage, admit: nat -> bool, faults: seq<Faults>)
    requires |faults| == |Admitted(msg.targets, admit, 0)|
  {
    forall k | 0 <= k < |faults| :: ParkedIn(Admitted(msg.targets, admit, 0)[k], faults[k]) == []
  }

  /** What an acknowledgement is worth: every target position is on a gateway's stream or in
      an offline list if and only if no offline push of an unrouted target failed. */
  lemma {:induction false} AcknowledgedExactly(parts: seq<seq<Event>>, moves: seq<Move>, msg: PushMessage, admit: nat -> bool,
                                               faults: seq<Faults>, e: I.Event)
    requires |msg.targets| < TWO_31 && UnderFaults(parts, msg, admit, faults)
    requires e in I.Run(Run(parts, moves).actions).fired && e.callback.Completed?
    ensures Balance(Run(parts, moves).work.emitted).Queued() == multiset(msg.targets) <==> NobodyParks(msg, admit, faults)
  {
    hide Balance, Handles, I.Run, Run, Admitted, Emitted;
    var p := Run(parts, moves).work;
    AcknowledgedMeansHandedOver(parts, moves, msg, admit);
    WorkIsPlay(parts, moves);
    PlayEmits(parts, ScheduleOf(parts, moves));
    var all := Lengths(parts);
    HandledFitsTargets(parts, msg, admit, all);
    EmittedWithin(parts, p.next);
    AllHandedMeansAllParked(Emitted(parts, p.next), Emitted(parts, all), multiset(msg.targets));
    AllParked(parts, msg, admit, faults);
    ParkedIsHanded(p.emitted);
    QueuedIsAllExactly(Balance(p.emitted));
  }

  // ---------- Where the copies of a message end up ----------

  /** How often the workers of all batches are due to cause such an event. */
  function DueInAll(e: Event, batches: seq<seq<int64>>, body: ClientMessage, faults: seq<Faults>): nat
    requires |faults| == |batches|
  {
    if batches == [] then 0
    else
      var m := |batches| - 1;
      DueInAll(e, batches[..m], body, faults[..m]) + Due(e, batches[m], body, faults[m])
  }

  function Caused(e: Event, parts: seq<seq<Event>>, next: seq<nat>): nat
    requires |next| == |parts| && forall k | 0 <= k < |parts| :: next[k] <= |parts[k]|
  {
    if parts == [] then 0
    else
      var m := |parts| - 1;
      Caused(e, parts[..m], next[..m]) + multiset(parts[m][..next[m]])[e]
  }

  lemma {:induction false} OneMoreCaused(e: Event, parts: seq<seq<Event>>, next: seq<nat>, k: nat)
    requires |next| == |parts| && forall j | 0 <= j < |parts| :: next[j] <= |parts[j]|
    requires k < |parts| && next[k] < |parts[k]|
    ensures Caused(e, parts, next[k := next[k] + 1]) == Caused(e, parts, next) + if parts[k][next[k]] == e then 1 else 0
  {
    var m := |parts| - 1;
    if k == m {
      assert next[k := next[k] + 1][..m] == next[..m];
      assert parts[m][..next[m] + 1] == parts[m][..next[m]] + [parts[m][next[m]]];
    } else {
      assert next[k := next[k] + 1][..m] == next[..m][k := next[k] + 1];
      OneMoreCaused(e, parts[..m], next[..m], k);
    }
  }

  lemma {:induction false} NothingCaused(e: Event, parts: seq<seq<Event>>)
    ensures Caused(e, parts, Zeros(|parts|)) == 0
  {
    if parts != [] {
      OneZeroLess(|parts|);
      NothingCaused(e, parts[..|parts| - 1]);
    }
  }

  lemma {:induction false} PlayCauses(e: Event, parts: seq<seq<Event>>, schedule: seq<nat>)
    ensures multiset(Play(parts, schedule).emitted)[e] == Caused(e, parts, Play(parts, schedule).next)
  {
    hide Caused;
    if schedule == [] {
      NothingCaused(e, parts);
    } else {
      var p, k := Play(parts, schedule[..|schedule| - 1]), schedule[|schedule| - 1];
      PlayCauses(e, parts, schedule[..|schedule| - 1]);
      if k < |parts| && p.next[k] < |parts[k]| { OneMoreCaused(e, parts, p.next, k); }
    }
  }

  lemma {:induction false} CausedFirst(e: Event, parts: seq<seq<Event>>, next: seq<nat>)
    requires parts != [] && |next| == |parts| && forall k | 0 <= k < |parts| :: next[k] <= |parts[k]|
    ensures Caused(e, parts, next) == multiset(parts[0][..next[0]])[e] + Caused(e, parts[1..], next[1..])
  {
    var m := |parts| - 1;
    if m > 0 {
      CausedFirst(e, parts[..m], next[..m]);
      assert parts[..m][1..] == parts[1..][..m - 1] && next[..m][1..] == next[1..][..m - 1];
    }
  }

  lemma {:induction false} WorkersCause(e: Event, workers: seq<seq<Event>>, next: seq<nat>, batches: seq<seq<int64>>,
                                        body: ClientMessage, faults: seq<Faults>)
    requires |next| == |workers| == |batches| == |faults| && forall k | 0 <= k < |workers| :: next[k] <= |workers[k]|
    requires forall k | 0 <= k < |workers| :: multiset(workers[k])[e] == Due(e, batches[k], body, faults[k])
    ensures Caused(e, workers, next) <= DueInAll(e, batches, body, faults)
    ensures (forall k | 0 <= k < |workers| :: next[k] == |workers[k]|) ==>
              Caused(e, workers, next) == DueInAll(e, batches, body, faults)
  {
    if workers != [] {
      hide Due;
      var m := |workers| - 1;
      WorkersCause(e, workers[..m], next[..m], batches[..m], body, faults[..m]);
      assert workers[m] == workers[m][..next[m]] + workers[m][next[m]..];
      assert workers[m][..|workers[m]|] == workers[m];
    }
  }

  lemma DispatcherCausesNone(e: Event, msg: PushMessage, admit: nat -> bool, n: nat)
    requires IsCopy(e) && n <= |DispatcherPart(msg, admit)|
    ensures multiset(DispatcherPart(msg, admit)[..n])[e] == 0
  {
    hide DroppedCount, Wrap32;
    assert forall x | x in DispatcherPart(msg, admit)[..n] :: !IsCopy(x);
  }

  /** In every run no copy is put anywhere but where the routes and faults that the workers met
      send it, nor twice; and when all workers have finished, all of them are there: on the
      stream of the gateway a target is routed to exactly if that stream works. */
  lemma CopiesGoWhereDue(parts: seq<seq<Event>>, moves: seq<Move>, msg: PushMessage, admit: nat -> bool,
                         faults: seq<Faults>, e: Event)
    requires UnderFaults(parts, msg, admit, faults) && IsCopy(e)
    ensures var p := Run(parts, moves).work;
            var due := DueInAll(e, Admitted(msg.targets, admit, 0), msg.body, faults);
            && multiset(p.emitted)[e] <= due
            && ((forall k | 1 <= k < |parts| :: p.next[k] == |parts[k]|) ==> multiset(p.emitted)[e] == due)
  {
    hide Balance, Settles, Caused, Due, DueInAll, Admitted, DispatcherPart, Run;
    var p, batches := Run(parts, moves).work, Admitted(msg.targets, admit, 0);
    WorkIsPlay(parts, moves);
    PlayCauses(e, parts, ScheduleOf(parts, moves));
    CausedFirst(e, parts, p.next);
    DispatcherCausesNone(e, msg, admit, p.next[0]);
    forall k | 0 <= k < |batches| ensures multiset(parts[1..][k])[e] == Due(e, batches[k], msg.body, faults[k]) {
      assert CopiesAreDue(parts[k + 1], batches[k], msg.body, faults[k]);
    }
    WorkersCause(e, parts[1..], p.next[1..], batches, msg.body, faults);
  }

  function Lengths(parts: seq<seq<Event>>): (next: seq<nat>)
    ensures |next| == |parts| && forall k | 0 <= k < |parts| :: next[k] == |parts[k]|
  {
    if parts == [] then [] else Lengths(parts[..|parts| - 1]) + [|parts[|parts| - 1]|]
  }

  lemma HandledFitsTargets(parts: seq<seq<Event>>, msg: PushMessage, admit: nat -> bool, next: seq<nat>)
    requires |msg.targets| < TWO_31 && Handles(parts, msg, admit)
    requires |next| == |parts| && forall k | 0 <= k < |parts| :: next[k] <= |parts[k]|
    ensures Emitted(parts, next).handed <= multiset(msg.targets)
  {
    hide Balance, Emitted, Settles, Flatten;
    var batches := Admitted(msg.targets, admit, 0);
    SplitFirst(parts, next);
    DispatcherBalance(msg, admit, next[0]);
    WorkersStayInBatches(parts[1..], next[1..], msg.body, batches);
    BatchesPartition(msg.targets, admit, 0);
  }

  /** From `a` to `b` more is handed over, and no more is parked than that. */
  ghost predicate Within(a: Account, b: Account) {
    forall u :: a.handed[u] <= b.handed[u] && a.parked[u] <= b.parked[u] && b.parked[u] - a.parked[u] <= b.handed[u] - a.handed[u]
  }

  lemma {:induction false} BalanceWithin(part: seq<Event>, n: nat)
    requires n <= |part|
    ensures Within(Balance(part[..n]), Balance(part))
    decreases |part| - n
  {
    if n == |part| {
      assert part[..n] == part;
    } else {
      BalanceWithin(part, n + 1);
      OneEventWithin(part, n);
    }
  }

  lemma OneEventWithin(part: seq<Event>, n: nat)
    requires n < |part|
    ensures Within(Balance(part[..n]), Balance(part[..n + 1]))
  {
    hide Balance, NeverAhead;
    Appended(part[..n], part[n]);
    assert part[..n + 1] == part[..n] + [part[n]];
  }

  lemma {:induction false} EmittedWithin(parts: seq<seq<Event>>, next: seq<nat>)
    requires |next| == |parts| && forall k | 0 <= k < |parts| :: next[k] <= |parts[k]|
    ensures Within(Emitted(parts, next), Emitted(parts, Lengths(parts)))
  {
    if parts != [] {
      hide Balance, Emitted;
      var m := |parts| - 1;
      EmittedWithin(parts[..m], next[..m]);
      EmittedLast(parts, next);
      EmittedLast(parts, Lengths(parts));
      assert Lengths(parts)[..m] == Lengths(parts[..m]);
      BalanceWithin(parts[m], next[m]);
      assert parts[m][..|parts[m]|] == parts[m];
    }
  }

  lemma AllHandedMeansAllParked(a: Account, b: Account, all: multiset<int64>)
    requires Within(a, b) && a.handed == all && b.handed <= all
    ensures a.parked == b.parked
  {
    assert forall u :: b.handed[u] <= all[u];
    assert forall u :: a.parked[u] == b.parked[u];
  }

  lemma {:induction false} ParkedIsHanded(log: seq<Event>)
    ensures Balance(log).parked <= Balance(log).handed
  {
    if log != [] {
      ParkedIsHanded(log[..|log| - 1]);
    }
  }

  lemma LastWorkerParks(workers: seq<seq<Event>>)
    requires workers != []
    ensures var m := |workers| - 1;
            Emitted(workers, Lengths(workers)).parked
            == Emitted(workers[..m], Lengths(workers[..m])).parked + Balance(workers[m]).parked
  {
    hide Balance, Emitted;
    var m := |workers| - 1;
    EmittedLast(workers, Lengths(workers));
    assert Lengths(workers)[..m] == Lengths(workers[..m]);
    assert workers[m][..|workers[m]|] == workers[m];
  }

  predicate Parks(worker: seq<Event>) {
    Balance(worker).parked != multiset{}
  }

  /** None of the workers parks anything. */
  predicate NoneParks(workers: seq<seq<Event>>) {
    forall k | 0 <= k < |workers| :: !Parks(workers[k])
  }

  lemma NoneParksLast(workers: seq<seq<Event>>)
    requires workers != []
    ensures NoneParks(workers) <==> NoneParks(workers[..|workers| - 1]) && !Parks(workers[|workers| - 1])
  {
    hide Parks;
    assert forall k | 0 <= k < |workers| - 1 :: workers[..|workers| - 1][k] == workers[k];
  }

  lemma NobodyParksAtAll()
    ensures Emitted([], Lengths([])).parked == multiset{}
  {
  }

  lemma {:induction false} WorkersPark(workers: seq<seq<Event>>)
    ensures Emitted(workers, Lengths(workers)).parked == multiset{} <==> NoneParks(workers)
  {
    hide Balance, Emitted, Lengths, NoneParks;
    if workers == [] {
      NobodyParksAtAll();
      NoneParksEmpty();
    } else {
      var before, last := workers[..|workers| - 1], workers[|workers| - 1];
      WorkersPark(before);
      LastWorkerParks(workers);
      SumIsEmpty(Emitted(before, Lengths(before)).parked, Balance(last).parked);
      NoneParksLast(workers);
    }
  }

  lemma NoneParksEmpty()
    ensures NoneParks([])
  {
  }

  lemma SumIsEmpty(a: multiset<int64>, b: multiset<int64>)
    ensures a + b == multiset{} <==> a == multiset{} && b == multiset{}
  {
    assert |a + b| == |a| + |b|;
  }

  lemma AllParked(parts: seq<seq<Event>>, msg: PushMessage, admit: nat -> bool, faults: seq<Faults>)
    requires |msg.targets| < TWO_31 && UnderFaults(parts, msg, admit, faults)
    ensures Emitted(parts, Lengths(parts)).parked == multiset{} <==> NobodyParks(msg, admit, faults)
  {
    hide Balance, Emitted, Settles, ParkedIn, Admitted;
    var workers := parts[1..];
    SplitFirst(parts, Lengths(parts));
    DispatcherBalance(msg, admit, |parts[0]|);
    assert Lengths(parts)[1..] == Lengths(workers);
    WorkersPark(workers);
    forall k | 0 <= k < |workers|
      ensures !Parks(workers[k]) <==> ParkedIn(Admitted(msg.targets, admit, 0)[k], faults[k]) == [] {
      assert workers[k] == parts[k + 1];
    }
  }

  lemma QueuedIsAllExactly(a: Account)
    requires a.parked <= a.handed
    ensures a.Queued() == a.handed <==> a.parked == multiset{}
  {
    if a.parked != multiset{} {
      var u :| u in a.parked;
      assert (a.handed - a.parked)[u] == a.handed[u] - a.parked[u];
    }
  }

  lemma SingleCounter(parts: seq<seq<Event>>, s: System, msg: PushMessage)
    requires parts != [] && |s.work.next| == |parts| && Tracks(parts, s, msg)
    ensures |I.Run(s.actions).cells| <= 1 && |I.Run(s.actions).fired| <= 1
    ensures forall e | e in I.Run(s.actions).fired :: e.cell == 0 && |I.Run(s.actions).cells| == 1
  {
    hide Balance;
    var m := I.Run(s.actions);
    I.CallbackSafety(s.actions);
    forall e | e in m.fired ensures e.cell < |m.cells| { }
    AllFiredForOne(m.fired, |m.cells|);
  }

  lemma CompletedMeansAllDone(parts: seq<seq<Event>>, s: System, msg: PushMessage, e: I.Event)
    requires parts != [] && |s.work.next| == |parts| && Tracks(parts, s, msg)
    requires e in I.Run(s.actions).fired && e.callback.Completed?
    ensures e.callback.id == msg.body.id && Balance(s.work.emitted).done >= |msg.targets|
  {
    hide Balance;
    var m := I.Run(s.actions);
    SingleCounter(parts, s, msg);
    I.CallbackSafety(s.actions);
    assert e.callback == I.Verdict(m, 0);
    I.RunKeepsInv(s.actions);
    I.CountsArePositive(m);
    I.SubtractedAtMostIssued(0, m.calls);
  }

  lemma {:induction false} AllFiredForOne(fired: seq<I.Event>, size: nat)
    requires size <= 1 && forall e | e in fired :: e.cell < size
    ensures |fired| == if size == 0 then 0 else I.FiredFor(0, fired)
  {
    if fired != [] {
      assert fired[|fired| - 1] in fired;
      AllFiredForOne(fired[..|fired| - 1], size);
    }
  }

  // ---------- An acknowledged message that no queue holds ----------

  /** Every batch is enqueued. */
  function AdmitAll(): nat -> bool {
    (k: nat) => true
  }

  /** The dispatcher and the one worker of a message to one user without a route, whose
      offline push fails. */
  function ParkedParts(body: ClientMessage, user: int64): seq<seq<Event>> {
    [[Opened(body.id, 1)], [Parked(user, body), Reported(body.id, false, 1)]]
  }

  const PARKED_MOVES: seq<Move> := [Work(0), Work(1), Work(1)]

  const ADVANCES: seq<Move> := [Advance(0), Advance(0), Advance(0), Advance(0), Advance(0)]

  lemma ParkedPartsHandle(body: ClientMessage, user: int64, f: Faults)
    requires user !in RouteMap(f) && f.marshals(0) && !f.offlinePushes(0)
    ensures UnderFaults(ParkedParts(body, user), PushMessage(body, [user]), AdmitAll(), [f])
  {
    var msg, parts := PushMessage(body, [user]), ParkedParts(body, user);
    OneBatch(user);
    ParkedPart(body, user);
    assert [user][..0] == [];
    assert ParkedIn([user], f) == [user];
    ParkedIsDue(body, user, f);
    hide CopiesAreDue, Settles, Balance, Admitted;
    assert Admitted(msg.targets, AdmitAll(), 0) == [[user]];
  }

  lemma ParkedIsDue(body: ClientMessage, user: int64, f: Faults)
    requires user !in RouteMap(f) && f.marshals(0) && !f.offlinePushes(0)
    ensures CopiesAreDue([Parked(user, body), Reported(body.id, false, 1)], [user], body, f)
  {
    assert [user][..0] == [];
    assert ParkedIn([], f) == [] && OfflineIn([], f) == [];
    assert ParkedIn([user], f) == [] + [user] && OfflineIn([user], f) == [];
    var part := [Parked(user, body), Reported(body.id, false, 1)];
    forall e: Event | IsCopy(e) ensures multiset(part)[e] == Due(e, [user], body, f) {
      if e.StreamAdd? { assert RoutedTo([user], RouteMap(f), {e.gateway}) == []; }
    }
  }

  lemma OneBatch(user: int64)
    ensures Admitted([user], AdmitAll(), 0) == [[user]] && DroppedCount([user], AdmitAll(), 0) == 0
  {
    assert [user][..1] == [user] && [user][1..] == [];
  }

  lemma ParkedPart(body: ClientMessage, user: int64)
    ensures var part := [Parked(user, body), Reported(body.id, false, 1)];
            Settles(part, body, multiset([user])) && Balance(part).parked == multiset{user}
  {
    hide Balance, NeverAhead;
    var e, f := Parked(user, body), Reported(body.id, false, 1);
    BalanceOfOne(e);
    EmptyBalance();
    Appended([], e);
    assert [] + [e] == [e] && [e] + [f] == [e, f];
    assert Balance([e]) == Account(0, 0, multiset{user}, multiset{user});
    AddReport([e], body, false, 1);
    assert multiset([user]) == multiset{user};
  }

  lemma RunOnce(parts: seq<seq<Event>>, before: seq<Move>, move: Move)
    ensures Run(parts, before + [move]) == Next(parts, Run(parts, before), move)
  {
    assert (before + [move])[..|before|] == before;
  }

  lemma ParkedWork(body: ClientMessage, user: int64)
    ensures var parts := ParkedParts(body, user);
            Run(parts, PARKED_MOVES) ==
            System(Progress([1, 2], parts[0] + parts[1]), [I.Init(body.id, 1), I.Issue(body.id, false, 1)])
  {
    var parts := ParkedParts(body, user);
    assert Zeros(0) == [] && Zeros(1) == [0] && Zeros(2) == [0, 0];
    assert Run(parts, []).work.next == [0, 0];
    RunOnce(parts, [], Work(0));
    assert [] + [Work(0)] == [Work(0)];
    RunOnce(parts, [Work(0)], Work(1));
    assert [Work(0)] + [Work(1)] == [Work(0), Work(1)];
    RunOnce(parts, [Work(0), Work(1)], Work(1));
    assert [Work(0), Work(1)] + [Work(1)] == PARKED_MOVES;
  }

  /** Only `count` advances more. */
  lemma {:induction false} AdvancesOnly(parts: seq<seq<Event>>, before: seq<Move>, count: nat)
    requires count <= 5
    ensures var s := Run(parts, before);
            Run(parts, before + ADVANCES[..count]) == s.(actions := s.actions + I.ADVANCES[..count])
  {
    hide Run;
    if count == 0 {
      assert before + ADVANCES[..0] == before;
      assert Run(parts, before).actions + I.ADVANCES[..0] == Run(parts, before).actions;
    } else {
      AdvancesOnly(parts, before, count - 1);
      RunOnce(parts, before + ADVANCES[..count - 1], Advance(0));
      assert before + ADVANCES[..count] == before + ADVANCES[..count - 1] + [Advance(0)];
      assert I.ADVANCES[..count] == I.ADVANCES[..count - 1] + [I.Advance(0)];
    }
  }

  /** The failing input: a message to one user without a route, whose offline push fails, is
      handled by its dispatcher and worker as the code does, and acknowledged although no
      stream and no offline list holds it. */
  lemma ParkedIsAcknowledged(body: ClientMessage, user: int64, f: Faults)
    requires user !in RouteMap(f) && f.marshals(0) && !f.offlinePushes(0)
    ensures UnderFaults(ParkedParts(body, user), PushMessage(body, [user]), AdmitAll(), [f])
    ensures var s := Run(ParkedParts(body, user), PARKED_MOVES + ADVANCES);
            && I.Run(s.actions).fired == [I.Event(0, P.Completed(body.id))]
            && Balance(s.work.emitted).Queued() == multiset{}
  {
    hide Run, I.Run, Balance;
    var parts := ParkedParts(body, user);
    ParkedPartsHandle(body, user, f);
    hide UnderFaults;
    ParkedWork(body, user);
    AdvancesOnly(parts, PARKED_MOVES, 5);
    assert ADVANCES[..5] == ADVANCES && I.ADVANCES[..5] == I.ADVANCES;
    I.OneCallCompletes(body.id, 1);
    BalanceOfConcat(parts[0], parts[1]);
    ParkedPart(body, user);
    BalanceOfOne(Opened(body.id, 1));
    PlusNothing(Balance(parts[1]));
    QueuedNothing(Balance(parts[1]), user);
  }

  lemma QueuedNothing(a: Account, user: int64)
    requires a.handed <= multiset{user} && a.parked == multiset{user}
    ensures a.Queued() == multiset{}
  {
  }

  lemma FewDropped(msg: PushMessage, admit: nat -> bool)
    requires |msg.targets| < TWO_31
    ensures DroppedCount(msg.targets, admit, 0) < TWO_31
  {
    BatchesPartition(msg.targets, admit, 0);
  }

  /** The other direction: once everyone has finished and no call is in flight, exactly one
      callback has fired, the acknowledging one just when no position failed. A message
      without targets is the exception: nobody ever reports on it, so it is never decided. */
  lemma FinishedMeansDecided(parts: seq<seq<Event>>, moves: seq<Move>, msg: PushMessage, admit: nat -> bool)
    requires |msg.targets| < TWO_31 && Handles(parts, msg, admit)
    requires forall k | 0 <= k < |parts| :: Run(parts, moves).work.next[k] == |parts[k]|
    requires forall c | c in I.Run(Run(parts, moves).actions).calls :: !I.InFlight(c)
    ensures var s := Run(parts, moves);
            var fired, failed := I.Run(s.actions).fired, Balance(s.work.emitted).failed;
            && |fired| == (if msg.targets == [] then 0 else 1)
            && (msg.targets != [] ==>
                  fired[0].callback == if failed > 0 then P.Failed(msg.body.id, Wrap32(failed)) else P.Completed(msg.body.id))
  {
    hide Balance, NeverAhead, Settles;
    var s := Run(parts, moves);
    var m := I.Run(s.actions);
    FewDropped(msg, admit);
    RunTracks(parts, moves, msg, admit);
    WorkIsPlay(parts, moves);
    ReportsAddUp(msg, admit, parts, ScheduleOf(parts, moves));
    assert s.work.next[0] == |parts[0]| > 0;
    SingleCounter(parts, s, msg);
    I.CallbackSafety(s.actions);
    if msg.targets != [] {
      I.CallbackFires(s.actions, 0);
      AllFiredForOne(m.fired, 1);
    }
    if m.fired != [] { assert m.fired[0] in m.fired; }
  }
}
