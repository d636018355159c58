/** The message flusher: takes over stream entries that a gateway left pending, pushes each
    of their targets back to some send instance, and acknowledges an entry once all targets
    were taken (internal/msgflusher/reclaimer.go). */
module Reclaimer {
  import opened GoInt
  import opened Wrappers

  /** What the `data` field of an entry holds. */
  datatype Data = Missing | Unsupported | Json(targets: Option<seq<int64>>)

  /** What the outside sees: an entry being taken up, a pushback request for one of its
      targets to one send instance and whether it was taken, an XACK and whether it worked. */
  datatype Event =
    | Claimed(id: string)
    | Tried(id: string, target: int64, instance: nat, ok: bool)
    | AckSent(id: string, ok: bool)

  /** One stream of one gateway, and its group's pending entries. */
  datatype Stream = Stream(entries: map<string, Data>, pending: set<string>, log: seq<Event>)

  /** The choices of network and chance, by the length of the log when they are made. */
  datatype World = World(order: nat -> seq<nat>, accepts: nat -> bool, acks: nat -> bool)

  datatype Reply = Entries(ids: seq<string>, next: string) | Failed

  predicate Permutes(order: seq<nat>, n: nat) {
    && |order| == n
    && (forall i | 0 <= i < n :: order[i] < n)
    && (forall instance | 0 <= instance < n :: instance in order)
    && (forall i, j | 0 <= i < j < n :: order[i] != order[j])
  }

  ghost predicate Shuffles(w: World, n: nat) {
    forall k: nat :: Permutes(w.order(k), n)
  }

  function Targets(entries: map<string, Data>, id: string): Option<seq<int64>> {
    if id in entries && entries[id].Json? then entries[id].targets else None
  }

  // ---------- What one entry causes ----------

  /** The requests for one target: instances in the given order up to the first that takes it. */
  function Tries(id: string, target: int64, order: seq<nat>, start: nat, w: World): seq<Event> {
    if order == [] then []
    else
      var ok := w.accepts(start);
      [Tried(id, target, order[0], ok)] + if ok then [] else Tries(id, target, order[1..], start + 1, w)
  }

  predicate Taken(tries: seq<Event>) {
    tries != [] && tries[|tries| - 1].Tried? && tries[|tries| - 1].ok
  }

  /** The requests for all targets, up to the first target nobody takes. */
  function Pushes(id: string, targets: seq<int64>, start: nat, w: World): seq<Event> {
    if targets == [] then []
    else
      var tries := Tries(id, targets[0], w.order(start), start, w);
      tries + if Taken(tries) then Pushes(id, targets[1..], start + |tries|, w) else []
  }

  predicate AllTaken(id: string, targets: seq<int64>, start: nat, w: World) {
    targets == [] ||
    var tries := Tries(id, targets[0], w.order(start), start, w);
    Taken(tries) && AllTaken(id, targets[1..], start + |tries|, w)
  }

  function ReclaimEntry(s: Stream, id: string, w: World): Stream {
    var log := s.log + [Claimed(id)];
    if Targets(s.entries, id).None? then s.(log := log)
    else
      var targets := Targets(s.entries, id).value;
      var pushed := log + Pushes(id, targets, |log|, w);
      if !AllTaken(id, targets, |log|, w) then s.(log := pushed)
      else
        var ok := w.acks(|pushed|);
        s.(log := pushed + [AckSent(id, ok)], pending := if ok then s.pending - {id} else s.pending)
  }

  function ReclaimAll(s: Stream, ids: seq<string>, w: World): Stream
    decreases |ids|
  {
    if ids == [] then s else ReclaimAll(ReclaimEntry(s, ids[0], w), ids[1..], w)
  }

  /** The claim loop: it ends at a failure, at an empty page, and at a cursor that is empty,
      zero or unchanged. */
  function ReclaimPages(s: Stream, replies: seq<Reply>, cursor: string, w: World): Stream
    decreases |replies|
  {
    if replies == [] || replies[0].Failed? then s
    else
      var page := replies[0];
      var s' := ReclaimAll(s, page.ids, w);
      if page.ids == [] || page.next == "" || page.next == "0-0" || page.next == cursor then s'
      else ReclaimPages(s', replies[1..], page.next, w)
  }

  class Worker {
    const entries: map<string, Data>
    var pending: set<string>
    var log: seq<Event>

    ghost function View(): Stream
      reads this
    {
      Stream(entries, pending, log)
    }

    constructor (entries: map<string, Data>, pending: set<string>)
      ensures View() == Stream(entries, pending, [])
    {
      this.entries, this.pending, this.log := entries, pending, [];
    }

    /** pushbackToSend with `n` send instances. */
    method PushbackToSend(id: string, target: int64, n: nat, w: World) returns (ok: bool)
      requires Shuffles(w, n)
      modifies this`log
      ensures var tries := Tries(id, target, w.order(|old(log)|), |old(log)|, w);
              log == old(log) + tries && ok == Taken(tries)
    {
      hide Tries, Taken;
      if n == 0 {
        CallStopsAtFirstSuccess(id, target, w.order(|log|), |log|, w);
        NoneTaken();
        return false;
      }
      var order := w.order(|log|);
      ghost var all := Tries(id, target, order, |log|, w);
      ghost var done: seq<Event> := [];
      assert order[0..] == order;
      NoneTaken();
      for k := 0 to n
        invariant log == old(log) + done && done + Tries(id, target, order[k..], |log|, w) == all && !Taken(done)
      {
        var accepted := w.accepts(|log|);
        NextTry(id, target, order, k, |log|, w, done);
        done := done + [Tried(id, target, order[k], accepted)];
        log := log + [Tried(id, target, order[k], accepted)];
        if accepted { return true; }
      }
      CallStopsAtFirstSuccess(id, target, order[n..], |log|, w);
      assert done + [] == done;
      return false;
    }

    /** The loop over the targets of one entry. */
    method PushAll(id: string, targets: seq<int64>, n: nat, w: World) returns (ok: bool)
      requires Shuffles(w, n)
      modifies this`log
      ensures log == old(log) + Pushes(id, targets, |old(log)|, w)
      ensures ok == AllTaken(id, targets, |old(log)|, w)
    {
      hide Tries, Taken, Pushes, AllTaken;
      ghost var all, allTaken := Pushes(id, targets, |log|, w), AllTaken(id, targets, |log|, w);
      ghost var done: seq<Event> := [];
      assert targets[0..] == targets;
      for k := 0 to |targets|
        invariant log == old(log) + done && done + Pushes(id, targets[k..], |log|, w) == all
        invariant AllTaken(id, targets[k..], |log|, w) == allTaken
      {
        NextTarget(id, targets, k, |log|, w, done);
        done := done + Tries(id, targets[k], w.order(|log|), |log|, w);
        var taken := PushbackToSend(id, targets[k], n, w);
        if !taken { return false; }
      }
      NoTargetLeft(id, targets, |log|, w);
      return true;
    }

    method Reclaim(id: string, n: nat, w: World)
      requires Shuffles(w, n)
      modifies this
      ensures View() == ReclaimEntry(old(View()), id, w)
    {
      hide Pushes, AllTaken, Targets;
      log := log + [Claimed(id)];
      var targets := Targets(entries, id);
      if targets.None? { return; }
      var ok := PushAll(id, targets.value, n, w);
      if !ok { return; }
      if w.acks(|log|) {
        pending := pending - {id};
        log := log + [AckSent(id, true)];
      } else {
        log := log + [AckSent(id, false)];
      }
    }

    /** reclaimStream, with the replies XAUTOCLAIM gives one after the other. */
    method ReclaimStream(replies: seq<Reply>, n: nat, w: World)
      requires Shuffles(w, n)
      modifies this
      ensures View() == ReclaimPages(old(View()), replies, "0-0", w)
    {
      var cursor := "0-0";
      for p := 0 to |replies|
        invariant ReclaimPages(View(), replies[p..], cursor, w) == ReclaimPages(old(View()), replies, "0-0", w)
      {
        var page := replies[p];
        assert replies[p..][1..] == replies[p + 1..];
        if page.Failed? { return; }
        ReclaimPage(page.ids, n, w);
        if page.ids == [] || page.next == "" || page.next == "0-0" || page.next == cursor { return; }
        cursor := page.next;
      }
    }

    method ReclaimPage(ids: seq<string>, n: nat, w: World)
      requires Shuffles(w, n)
      modifies this
      ensures View() == ReclaimAll(old(View()), ids, w)
    {
      for k := 0 to |ids|
        invariant ReclaimAll(View(), ids[k..], w) == ReclaimAll(old(View()), ids, w)
      {
        assert ids[k..][1..] == ids[k + 1..];
        Reclaim(ids[k], n, w);
      }
    }
  }

  // ---------- The loops, unfolded once ----------

  lemma NoneTaken()
    ensures !Taken([])
  {
  }

  lemma NextTry(id: string, target: int64, order: seq<nat>, k: nat, start: nat, w: World, done: seq<Event>)
    requires k < |order|
    ensures var e := Tried(id, target, order[k], w.accepts(start));
            var rest := if e.ok then [] else Tries(id, target, order[k + 1..], start + 1, w);
            && done + Tries(id, target, order[k..], start, w) == done + [e] + rest
            && (Taken(done + [e]) <==> e.ok)
            && (e.ok ==> done + [e] + rest == done + [e])
  {
    assert order[k..][1..] == order[k + 1..];
  }

  lemma NextTarget(id: string, targets: seq<int64>, k: nat, start: nat, w: World, done: seq<Event>)
    requires k < |targets|
    ensures var tries := Tries(id, targets[k], w.order(start), start, w);
            && done + Pushes(id, targets[k..], start, w) ==
               done + tries + (if Taken(tries) then Pushes(id, targets[k + 1..], start + |tries|, w) else [])
            && (AllTaken(id, targets[k..], start, w) <==>
                Taken(tries) && AllTaken(id, targets[k + 1..], start + |tries|, w))
  {
    hide Tries, Taken;
    assert targets[k..][1..] == targets[k + 1..];
  }

  lemma NoTargetLeft(id: string, targets: seq<int64>, start: nat, w: World)
    ensures Pushes(id, targets[|targets|..], start, w) == [] && AllTaken(id, targets[|targets|..], start, w)
  {
  }

  // ---------- One pushback call ----------

  /** The targets taken in a stretch of the log, in order. */
  function Accepts(log: seq<Event>): seq<int64> {
    if log == [] then []
    else (if log[0].Tried? && log[0].ok then [log[0].target] else []) + Accepts(log[1..])
  }

  lemma NothingAccepted()
    ensures Accepts([]) == []
  {
  }

  lemma AcceptsFirst(log: seq<Event>)
    requires log != []
    ensures Accepts(log) == (if log[0].Tried? && log[0].ok then [log[0].target] else []) + Accepts(log[1..])
  {
  }

  lemma {:induction false} AcceptsTogether(a: seq<Event>, b: seq<Event>)
    ensures Accepts(a + b) == Accepts(a) + Accepts(b)
  {
    hide Accepts;
    if a == [] {
      NothingAccepted();
      assert a + b == b && [] + Accepts(b) == Accepts(b);
    } else {
      var first := if a[0].Tried? && a[0].ok then [a[0].target] else [];
      AcceptsTogether(a[1..], b);
      AcceptsFirst(a);
      AcceptsFirst(a + b);
      assert (a + b)[1..] == a[1..] + b;
      assert first + (Accepts(a[1..]) + Accepts(b)) == (first + Accepts(a[1..])) + Accepts(b);
    }
  }

  /** A call asks different instances one after the other, only the last of them may take the
      target, and giving up means that all were asked. */
  lemma {:induction false} CallStopsAtFirstSuccess(id: string, target: int64, order: seq<nat>, start: nat, w: World)
    ensures var tries := Tries(id, target, order, start, w);
            && |tries| <= |order|
            && (forall i | 0 <= i < |tries| ::
                  tries[i] == Tried(id, target, order[i], i == |tries| - 1 && Taken(tries)))
            && (!Taken(tries) ==> |tries| == |order|)
            && Accepts(tries) == if Taken(tries) then [target] else []
  {
    if order != [] {
      var tries := Tries(id, target, order, start, w);
      if w.accepts(start) {
        assert tries[1..] == [];
      } else {
        CallStopsAtFirstSuccess(id, target, order[1..], start + 1, w);
        var rest := Tries(id, target, order[1..], start + 1, w);
        assert tries[1..] == rest;
      }
    }
  }

  /** What each instance answers is what the network and the instance decide. */
  lemma {:induction false} AnswersAreTheWorlds(id: string, target: int64, order: seq<nat>, start: nat, w: World, i: nat)
    requires i < |Tries(id, target, order, start, w)|
    ensures i < |order| && Tries(id, target, order, start, w)[i] == Tried(id, target, order[i], w.accepts(start + i))
  {
    if i > 0 {
      assert Tries(id, target, order, start, w)[1..] == Tries(id, target, order[1..], start + 1, w);
      AnswersAreTheWorlds(id, target, order[1..], start + 1, w, i - 1);
    }
  }

  // ---------- One entry ----------

  /** Nobody took `target`: every one of the `n` instances was asked and refused. */
  ghost predicate RefusedByAll(log: seq<Event>, id: string, target: int64, n: nat) {
    forall instance | 0 <= instance < n :: Tried(id, target, instance, false) in log
  }

  ghost predicate OnlyTries(log: seq<Event>, id: string) {
    forall i | 0 <= i < |log| :: log[i].Tried? && log[i].id == id
  }

  /** The targets taken are a prefix of the list, all of it exactly if the entry is to be
      acknowledged, and otherwise the next one was refused by everybody. */
  lemma {:induction false} PushesTakeAPrefix(id: string, targets: seq<int64>, start: nat, w: World, n: nat)
    requires Shuffles(w, n)
    ensures var pushes := Pushes(id, targets, start, w);
            var done := Accepts(pushes);
            && OnlyTries(pushes, id) && done <= targets
            && (AllTaken(id, targets, start, w) <==> done == targets)
            && (done != targets ==> RefusedByAll(pushes, id, targets[|done|], n))
  {
    hide Tries, Taken, Accepts;
    if targets == [] {
      NothingAccepted();
    } else {
      var order := w.order(start);
      var tries := Tries(id, targets[0], order, start, w);
      CallStopsAtFirstSuccess(id, targets[0], order, start, w);
      if Taken(tries) {
        var rest := Pushes(id, targets[1..], start + |tries|, w);
        PushesTakeAPrefix(id, targets[1..], start + |tries|, w, n);
        AcceptsTogether(tries, rest);
        PrefixGrows(tries, rest, targets);
      } else {
        assert Permutes(order, n);
        AllWereAsked(tries, id, targets[0], order, n);
        assert tries + [] == tries;
      }
    }
  }

  lemma PrefixGrows(tries: seq<Event>, rest: seq<Event>, targets: seq<int64>)
    requires targets != [] && Accepts(tries + rest) == [targets[0]] + Accepts(rest) && Accepts(rest) <= targets[1..]
    ensures Accepts(tries + rest) <= targets
    ensures Accepts(tries + rest) == targets <==> Accepts(rest) == targets[1..]
    ensures Accepts(rest) != targets[1..] ==>
              |Accepts(rest)| < |targets| - 1 && targets[|Accepts(tries + rest)|] == targets[1..][|Accepts(rest)|]
  {
    assert targets == [targets[0]] + targets[1..];
    assert targets[1..][..|targets[1..]|] == targets[1..];
    if Accepts(rest) == targets[1..] {
      assert Accepts(tries + rest) == targets;
    }
    if Accepts(tries + rest) == targets {
      assert Accepts(rest) == Accepts(tries + rest)[1..];
    }
  }

  lemma AllWereAsked(tries: seq<Event>, id: string, target: int64, order: seq<nat>, n: nat)
    requires Permutes(order, n) && |tries| == n
    requires forall i | 0 <= i < n :: tries[i] == Tried(id, target, order[i], false)
    ensures RefusedByAll(tries, id, target, n)
  {
    forall instance | 0 <= instance < n ensures Tried(id, target, instance, false) in tries {
      assert instance in order;
      var i :| 0 <= i < n && order[i] == instance;
      assert tries[i] == Tried(id, target, instance, false);
    }
  }

  // ---------- Which entries a pass takes up ----------

  /** The entries taken up, in order. */
  function TakenUp(log: seq<Event>): seq<string> {
    if log == [] then []
    else TakenUp(log[..|log| - 1]) + if log[|log| - 1].Claimed? then [log[|log| - 1].id] else []
  }

  function IdsOf(pages: seq<Reply>): seq<string> {
    if pages == [] then []
    else IdsOf(pages[..|pages| - 1]) + if pages[|pages| - 1].Entries? then pages[|pages| - 1].ids else []
  }

  lemma {:induction false} TakenUpTogether(a: seq<Event>, b: seq<Event>)
    ensures TakenUp(a + b) == TakenUp(a) + TakenUp(b)
  {
    if b == [] {
      assert a + b == a;
    } else {
      TakenUpTogether(a, b[..|b| - 1]);
      assert (a + b)[..|a + b| - 1] == a + b[..|b| - 1];
    }
  }

  lemma {:induction false} IdsTogether(page: Reply, rest: seq<Reply>)
    requires page.Entries?
    ensures IdsOf([page] + rest) == page.ids + IdsOf(rest)
  {
    if rest == [] {
      assert ([page] + rest)[..0] == [];
    } else {
      IdsTogether(page, rest[..|rest| - 1]);
      assert ([page] + rest)[..|rest|] == [page] + rest[..|rest| - 1];
    }
  }

  lemma {:induction false} TriesTakeUpNothing(log: seq<Event>)
    requires forall i | 0 <= i < |log| :: !log[i].Claimed?
    ensures TakenUp(log) == []
  {
    if log != [] { TriesTakeUpNothing(log[..|log| - 1]); }
  }

  lemma EntryIsTakenUp(s: Stream, id: string, w: World, n: nat)
    requires Shuffles(w, n)
    ensures TakenUp(ReclaimEntry(s, id, w).log) == TakenUp(s.log) + [id]
  {
    hide Shuffles, Accepts, RefusedByAll;
    EntryIsAllOrNothing(s, id, w, n);
    var s' := ReclaimEntry(s, id, w);
    var pushes: seq<Event>, acks: seq<Event> :| Handled(s, s', id, pushes, acks, w, n);
    hide ReclaimEntry;
    TriesTakeUpNothing(pushes + acks);
    assert [Claimed(id)] + pushes + acks == [Claimed(id)] + (pushes + acks);
    TakenUpTogether([Claimed(id)], pushes + acks);
    TakenUpTogether(s.log, [Claimed(id)] + (pushes + acks));
    assert [Claimed(id)][..0] == [];
    assert TakenUp([Claimed(id)]) == [id];
  }

  lemma {:induction false} PageIsTakenUp(s: Stream, ids: seq<string>, w: World, n: nat)
    requires Shuffles(w, n)
    ensures TakenUp(ReclaimAll(s, ids, w).log) == TakenUp(s.log) + ids
    decreases |ids|
  {
    hide ReclaimEntry, Shuffles, TakenUp;
    if ids != [] {
      EntryIsTakenUp(s, ids[0], w, n);
      PageIsTakenUp(ReclaimEntry(s, ids[0], w), ids[1..], w, n);
      assert TakenUp(s.log) + [ids[0]] + ids[1..] == TakenUp(s.log) + ids;
    } else {
      assert TakenUp(s.log) + ids == TakenUp(s.log);
    }
  }

  /** The page that follows `cursor` ends a pass. */
  predicate EndsPass(page: Reply, cursor: string) {
    page.Failed? || page.ids == [] || page.next == "" || page.next == "0-0" || page.next == cursor
  }

  function CursorAt(replies: seq<Reply>, k: nat, cursor: string): string
    requires k <= |replies|
  {
    if k == 0 || replies[k - 1].Failed? then cursor else replies[k - 1].next
  }

  /** The pass handles the first `m` pages: none before the last of them ends it, and it stops
      there because that page does, or because the next claim fails or is not made. */
  ghost predicate PassesThrough(replies: seq<Reply>, cursor: string, m: nat) {
    && m <= |replies| && (forall k | 0 <= k < m :: replies[k].Entries?)
    && (forall k | 0 <= k < m - 1 :: !EndsPass(replies[k], CursorAt(replies, k, cursor)))
    && (m == |replies| || replies[m].Failed? || (m > 0 && EndsPass(replies[m - 1], CursorAt(replies, m - 1, cursor))))
  }

  /** A pass takes up every entry of every page up to the one that ends it, in order. */
  lemma PassTakesUpAll(s: Stream, replies: seq<Reply>, cursor: string, w: World, n: nat)
    requires Shuffles(w, n)
    ensures exists m: nat :: PassesThrough(replies, cursor, m)
              && TakenUp(ReclaimPages(s, replies, cursor, w).log) == TakenUp(s.log) + IdsOf(replies[..m])
  {
    hide ReclaimPages, Shuffles, TakenUp, PassesThrough;
    var m := PagesHandled(s, replies, cursor, w, n);
  }

  lemma {:induction false} PagesHandled(s: Stream, replies: seq<Reply>, cursor: string, w: World, n: nat) returns (m: nat)
    requires Shuffles(w, n)
    ensures PassesThrough(replies, cursor, m)
    ensures TakenUp(ReclaimPages(s, replies, cursor, w).log) == TakenUp(s.log) + IdsOf(replies[..m])
    decreases |replies|
  {
    hide ReclaimAll, Shuffles, TakenUp, IdsOf;
    if replies == [] || replies[0].Failed? {
      m := 0;
      NoPage(TakenUp(s.log));
      assert replies[..0] == [];
    } else {
      var page := replies[0];
      PageIsTakenUp(s, page.ids, w, n);
      var more: nat := 0;
      if EndsPass(page, cursor) {
        assert PassesThrough(replies, cursor, 1);
        NoPage(TakenUp(s.log) + page.ids);
      } else {
        more := PagesHandled(ReclaimAll(s, page.ids, w), replies[1..], page.next, w, n);
        OneMorePage(replies, cursor, more);
      }
      m := more + 1;
      PagesTogether(TakenUp(s.log), replies, more);
    }
  }

  lemma NoPage(ids: seq<string>)
    ensures ids + IdsOf([]) == ids
  {
  }

  lemma PagesTogether(ids: seq<string>, replies: seq<Reply>, more: nat)
    requires more < |replies| && replies[0].Entries?
    ensures ids + IdsOf(replies[..more + 1]) == ids + replies[0].ids + IdsOf(replies[1..][..more])
  {
    hide IdsOf;
    IdsTogether(replies[0], replies[1..][..more]);
    assert replies[..more + 1] == [replies[0]] + replies[1..][..more];
  }

  lemma OneMorePage(replies: seq<Reply>, cursor: string, m: nat)
    requires replies != [] && !EndsPass(replies[0], cursor) && PassesThrough(replies[1..], replies[0].next, m)
    ensures PassesThrough(replies, cursor, m + 1)
  {
    var rest := replies[1..];
    forall k | 0 <= k < m + 1 ensures replies[k].Entries? { if k > 0 { assert rest[k - 1] == replies[k]; } }
    forall k | 0 < k <= m ensures CursorAt(replies, k, cursor) == CursorAt(rest, k - 1, replies[0].next) {
      if k > 1 { assert rest[k - 2] == replies[k - 1]; }
    }
    forall k | 0 <= k < m ensures !EndsPass(replies[k], CursorAt(replies, k, cursor)) {
      if k > 0 { assert rest[k - 1] == replies[k]; }
    }
  }

  // ---------- Runs ----------

  /** Besides passes of the reclaimer, entries arrive, and gateways acknowledge their own. */
  datatype Action = Arrive(id: string) | AckByGateway(id: string) | Pass(replies: seq<Reply>, n: nat, world: World)

  function Step(s: Stream, a: Action): Stream {
    match a
    case Arrive(id) => if id in s.entries then s.(pending := s.pending + {id}) else s
    case AckByGateway(id) => s.(pending := s.pending - {id})
    case Pass(replies, n, world) => ReclaimPages(s, replies, "0-0", world)
  }

  function Run(s: Stream, actions: seq<Action>): Stream {
    if actions == [] then s else Step(Run(s, actions[..|actions| - 1]), actions[|actions| - 1])
  }

  ghost predicate FairRun(actions: seq<Action>) {
    forall i | 0 <= i < |actions| :: actions[i].Pass? ==> Shuffles(actions[i].world, actions[i].n)
  }

  /** The XACK at position `k` was preceded by one unbroken pass through the entry, taken up
      at `j`, in which exactly its targets were taken, in order, each once. */
  ghost predicate EarnedSince(entries: map<string, Data>, log: seq<Event>, j: nat, k: nat)
    requires k < |log| && log[k].AckSent?
  {
    && j < k && log[j] == Claimed(log[k].id) && OnlyTries(log[j + 1..k], log[k].id)
    && log[k].id in entries && entries[log[k].id] == Json(Some(Accepts(log[j + 1..k])))
  }

  ghost predicate AckEarned(entries: map<string, Data>, log: seq<Event>, k: nat)
    requires k < |log| && log[k].AckSent?
  {
    exists j :: EarnedSince(entries, log, j, k)
  }

  ghost predicate AllEarned(s: Stream) {
    forall k | 0 <= k < |s.log| && s.log[k].AckSent? :: AckEarned(s.entries, s.log, k)
  }

  /** `pushes` and `acks` are the requests and the XACK that handling the entry adds: a
      prefix of its targets is taken; the entry is acknowledged if and only if it decoded
      and that prefix is everything, else the next target was refused by all; and it leaves
      the pending list if and only if that XACK worked. */
  ghost predicate Handled(s: Stream, s': Stream, id: string, pushes: seq<Event>, acks: seq<Event>, w: World, n: nat) {
    && s'.log == s.log + ([Claimed(id)] + pushes + acks)
    && s'.entries == s.entries
    && OnlyTries(pushes, id)
    && (if id in s.entries && s.entries[id].Json? && s.entries[id].targets.Some? then
          var targets, done := s.entries[id].targets.value, Accepts(pushes);
          && done <= targets
          && (done == targets <==> acks != [])
          && (done != targets ==> RefusedByAll(pushes, id, targets[|done|], n))
        else pushes == [] && acks == [])
    && (acks != [] ==> acks == [AckSent(id, w.acks(|s.log| + 1 + |pushes|))])
    && s'.pending == if acks != [] && acks[0].ok then s.pending - {id} else s.pending
  }

  lemma EntryIsAllOrNothing(s: Stream, id: string, w: World, n: nat)
    requires Shuffles(w, n)
    ensures exists pushes: seq<Event>, acks: seq<Event> :: Handled(s, ReclaimEntry(s, id, w), id, pushes, acks, w, n)
  {
    hide Pushes, AllTaken, Accepts, RefusedByAll, Shuffles;
    var s' := ReclaimEntry(s, id, w);
    var log := s.log + [Claimed(id)];
    if Targets(s.entries, id).None? {
      assert s'.log == s.log + ([Claimed(id)] + [] + []);
      assert Handled(s, s', id, [], [], w, n);
    } else {
      var targets := Targets(s.entries, id).value;
      var pushes := Pushes(id, targets, |log|, w);
      PushesTakeAPrefix(id, targets, |log|, w, n);
      var ok := w.acks(|log + pushes|);
      var acks := if AllTaken(id, targets, |log|, w) then [AckSent(id, ok)] else [];
      assert s'.log == s.log + ([Claimed(id)] + pushes + acks);
      assert Handled(s, s', id, pushes, acks, w, n);
    }
  }

  lemma EarnedKept(entries: map<string, Data>, log: seq<Event>, more: seq<Event>, k: nat)
    requires k < |log| && log[k].AckSent? && AckEarned(entries, log, k)
    ensures AckEarned(entries, log + more, k)
  {
    var j: nat :| EarnedSince(entries, log, j, k);
    assert (log + more)[j + 1..k] == log[j + 1..k];
    assert EarnedSince(entries, log + more, j, k);
  }

  lemma EntryKeepsEarned(s: Stream, id: string, w: World, n: nat)
    requires Shuffles(w, n) && AllEarned(s)
    ensures AllEarned(ReclaimEntry(s, id, w)) && ReclaimEntry(s, id, w).entries == s.entries
  {
    hide Accepts, RefusedByAll, AckEarned, Targets;
    var s' := ReclaimEntry(s, id, w);
    EntryIsAllOrNothing(s, id, w, n);
    var pushes: seq<Event>, acks: seq<Event> :| Handled(s, s', id, pushes, acks, w, n);
    var more := [Claimed(id)] + pushes + acks;
    forall k | 0 <= k < |s'.log| && s'.log[k].AckSent? ensures AckEarned(s'.entries, s'.log, k) {
      if k < |s.log| {
        EarnedKept(s.entries, s.log, more, k);
      } else {
        OneEarned(s.entries, s.log, id, pushes, acks, k);
      }
    }
  }

  lemma OneEarned(entries: map<string, Data>, before: seq<Event>, id: string, pushes: seq<Event>, acks: seq<Event>, k: nat)
    requires var log := before + ([Claimed(id)] + pushes + acks); |before| <= k < |log| && log[k].AckSent?
    requires OnlyTries(pushes, id)
    requires acks != [] ==> |acks| == 1 && acks[0].AckSent? && acks[0].id == id
    requires acks != [] ==> id in entries && entries[id] == Json(Some(Accepts(pushes)))
    ensures AckEarned(entries, before + ([Claimed(id)] + pushes + acks), k)
  {
    var log, j := before + ([Claimed(id)] + pushes + acks), |before|;
    assert log[j] == Claimed(id);
    assert forall i | 0 <= i < |pushes| :: log[j + 1 + i] == pushes[i];
    assert k == j + 1 + |pushes|;
    assert log[j + 1..k] == pushes;
    assert EarnedSince(entries, log, j, k);
  }

  lemma {:induction false} PageKeepsEarned(s: Stream, ids: seq<string>, w: World, n: nat)
    requires Shuffles(w, n) && AllEarned(s)
    ensures AllEarned(ReclaimAll(s, ids, w)) && ReclaimAll(s, ids, w).entries == s.entries
    decreases |ids|
  {
    if ids != [] {
      EntryKeepsEarned(s, ids[0], w, n);
      PageKeepsEarned(ReclaimEntry(s, ids[0], w), ids[1..], w, n);
    }
  }

  lemma {:induction false} PassKeepsEarned(s: Stream, replies: seq<Reply>, cursor: string, w: World, n: nat)
    requires Shuffles(w, n) && AllEarned(s)
    ensures AllEarned(ReclaimPages(s, replies, cursor, w)) && ReclaimPages(s, replies, cursor, w).entries == s.entries
    decreases |replies|
  {
    if replies != [] && !replies[0].Failed? {
      PageKeepsEarned(s, replies[0].ids, w, n);
      PassKeepsEarned(ReclaimAll(s, replies[0].ids, w), replies[1..], replies[0].next, w, n);
    }
  }

  lemma {:induction false} RunKeepsEarned(s: Stream, actions: seq<Action>)
    requires s.log == [] && FairRun(actions)
    ensures AllEarned(Run(s, actions)) && Run(s, actions).entries == s.entries
  {
    if actions != [] {
      var before, last := actions[..|actions| - 1], actions[|actions| - 1];
      RunKeepsEarned(s, before);
      if last.Pass? {
        PassKeepsEarned(Run(s, before), last.replies, "0-0", last.world, last.n);
      }
    }
  }

  /** Still pending, or acknowledged by the reclaimer with an XACK that worked. */
  ghost predicate PendingOrAcked(s: Stream, id: string) {
    id in s.pending || AckSent(id, true) in s.log
  }

  lemma EntryKeepsPending(s: Stream, other: string, w: World, id: string)
    requires PendingOrAcked(s, id)
    ensures PendingOrAcked(ReclaimEntry(s, other, w), id)
  {
    hide Pushes, AllTaken;
    var s' := ReclaimEntry(s, other, w);
    assert forall e | e in s.log :: e in s'.log;
    if id !in s'.pending && id in s.pending {
      assert s'.log[|s'.log| - 1] == AckSent(id, true);
    }
  }

  lemma {:induction false} PageKeepsPending(s: Stream, ids: seq<string>, w: World, id: string)
    requires PendingOrAcked(s, id)
    ensures PendingOrAcked(ReclaimAll(s, ids, w), id)
    decreases |ids|
  {
    if ids != [] {
      EntryKeepsPending(s, ids[0], w, id);
      PageKeepsPending(ReclaimEntry(s, ids[0], w), ids[1..], w, id);
    }
  }

  lemma {:induction false} PassKeepsPending(s: Stream, replies: seq<Reply>, cursor: string, w: World, id: string)
    requires PendingOrAcked(s, id)
    ensures PendingOrAcked(ReclaimPages(s, replies, cursor, w), id)
    decreases |replies|
  {
    if replies != [] && !replies[0].Failed? {
      PageKeepsPending(s, replies[0].ids, w, id);
      PassKeepsPending(ReclaimAll(s, replies[0].ids, w), replies[1..], replies[0].next, w, id);
    }
  }

  lemma {:induction false} RunKeepsPending(s: Stream, actions: seq<Action>, id: string)
    requires id in s.pending && forall i | 0 <= i < |actions| :: actions[i] != AckByGateway(id)
    ensures PendingOrAcked(Run(s, actions), id)
  {
    if actions != [] {
      var before, last := actions[..|actions| - 1], actions[|actions| - 1];
      RunKeepsPending(s, before, id);
      if last.Pass? {
        PassKeepsPending(Run(s, before), last.replies, "0-0", last.world, id);
      }
    }
  }

  lemma {:induction false} AcceptedWasTried(log: seq<Event>, target: int64)
    requires target in Accepts(log)
    ensures exists i :: 0 <= i < |log| && log[i].Tried? && log[i].ok && log[i].target == target
  {
    if !(log[0].Tried? && log[0].ok && log[0].target == target) {
      AcceptedWasTried(log[1..], target);
      var i :| 0 <= i < |log[1..]| && log[1..][i].Tried? && log[1..][i].ok && log[1..][i].target == target;
      assert log[i + 1] == log[1..][i];
    }
  }

  ghost predicate TakenBySomeone(log: seq<Event>, id: string, target: int64) {
    exists instance: nat :: Tried(id, target, instance, true) in log
  }

  lemma EarnedMeansTaken(entries: map<string, Data>, log: seq<Event>, k: nat, target: int64)
    requires k < |log| && log[k].AckSent? && AckEarned(entries, log, k)
    requires log[k].id in entries && entries[log[k].id].Json? && entries[log[k].id].targets.Some?
    requires target in entries[log[k].id].targets.value
    ensures TakenBySomeone(log, log[k].id, target)
  {
    var j: nat :| EarnedSince(entries, log, j, k);
    var pass := log[j + 1..k];
    AcceptedWasTried(pass, target);
    var i :| 0 <= i < |pass| && pass[i].Tried? && pass[i].ok && pass[i].target == target;
    assert pass[i] == log[j + 1 + i] == Tried(log[k].id, target, pass[i].instance, true);
  }

  /** Reclaimer safety, over any sequence of passes with any failures of send instances,
      claims and XACKs: an entry that its gateway did not acknowledge itself leaves the
      pending list only if it decoded and every one of its targets was taken by some send
      instance. Otherwise it stays, to be retried whole. */
  lemma {:induction false} EntriesLeaveOnlyWhenServed(s: Stream, actions: seq<Action>, id: string)
    requires s.log == [] && FairRun(actions) && id in s.pending
    requires forall i | 0 <= i < |actions| :: actions[i] != AckByGateway(id)
    ensures var s' := Run(s, actions);
            id !in s'.pending ==>
              && id in s.entries && s.entries[id].Json? && s.entries[id].targets.Some?
              && forall target | target in s.entries[id].targets.value :: TakenBySomeone(s'.log, id, target)
  {
    hide Run, TakenBySomeone;
    var s' := Run(s, actions);
    RunKeepsPending(s, actions, id);
    RunKeepsEarned(s, actions);
    if id !in s'.pending {
      var k :| 0 <= k < |s'.log| && s'.log[k] == AckSent(id, true);
      assert AckEarned(s'.entries, s'.log, k);
      var j: nat :| EarnedSince(s'.entries, s'.log, j, k);
      forall target | target in s.entries[id].targets.value
        ensures TakenBySomeone(s'.log, id, target) {
        EarnedMeansTaken(s.entries, s'.log, k, target);
      }
    }
  }
}
