/** The message write-behind queue: chat messages are queued in a Redis list and moved to
    MySQL in batches; a batch that cannot be inserted is pushed back
    (internal/send/chat/send/repo.go). */
module MessageFlush {
  import opened GoInt

  datatype Message = Message(id: int64, room: int64, sender: int64, kind: string, content: string, createdAt: int)

  /** An element of the list: a serialized message, or bytes that do not decode. */
  datatype Entry = Raw(message: Message) | Garbage(bytes: string)

  datatype State = State(queue: seq<Entry>, rows: seq<Message>)

  /** What the outside world decides about one flush: how many pops succeed before one
      fails, whether the insert succeeds, and which of the restoring pushes fail. */
  datatype World = World(pops: nat, inserts: bool, failed: set<nat>)

  // ---------- What one flush does ----------

  function Decoded(entries: seq<Entry>): seq<Message> {
    if entries == [] then []
    else
      var before, last := Decoded(entries[..|entries| - 1]), entries[|entries| - 1];
      if last.Raw? then before + [last.message] else before
  }

  function Encoded(messages: seq<Message>): (entries: seq<Entry>)
    ensures |entries| == |messages|
    ensures forall i | 0 <= i < |messages| :: entries[i] == Raw(messages[i])
  {
    if messages == [] then [] else Encoded(messages[..|messages| - 1]) + [Raw(messages[|messages| - 1])]
  }

  function Min(a: int, b: int): int {
    if a < b then a else b
  }

  function PopCount(s: State, batch: int, w: World): nat {
    if batch <= 0 then 0 else Min(batch, Min(|s.queue|, w.pops))
  }

  function Reversed(messages: seq<Message>): (r: seq<Message>)
    ensures |r| == |messages|
  {
    if messages == [] then [] else [messages[|messages| - 1]] + Reversed(messages[..|messages| - 1])
  }

  /** The messages whose push succeeds, last first. */
  function Kept(messages: seq<Message>, failed: set<nat>): seq<Message> {
    if messages == [] then []
    else
      var n := |messages| - 1;
      (if n in failed then [] else [messages[n]]) + Kept(messages[..n], failed)
  }

  function Dropped(messages: seq<Message>, failed: set<nat>): seq<Message> {
    if messages == [] then []
    else
      var n := |messages| - 1;
      (if n in failed then [messages[n]] else []) + Dropped(messages[..n], failed)
  }

  predicate NoneFails(messages: seq<Message>, failed: set<nat>) {
    forall i | i in failed :: i >= |messages|
  }

  function Popped(s: State, batch: int, w: World): seq<Message> {
    Decoded(s.queue[..PopCount(s, batch, w)])
  }

  function Flush(s: State, batch: int, w: World): State {
    var rest, messages := s.queue[PopCount(s, batch, w)..], Popped(s, batch, w);
    if w.inserts then State(rest, s.rows + messages)
    else State(rest + Encoded(Kept(messages, w.failed)), s.rows)
  }

  /** The messages a flush loses: popped, not inserted, and not pushed back. */
  function Lost(s: State, batch: int, w: World): seq<Message> {
    if w.inserts then [] else Dropped(Popped(s, batch, w), w.failed)
  }

  class Store {
    var queue: seq<Entry>
    var rows: seq<Message>

    ghost function View(): State
      reads this
    {
      State(queue, rows)
    }

    constructor ()
      ensures View() == State([], [])
    {
      queue, rows := [], [];
    }

    /** The message is accepted exactly when it could be queued. */
    method InsertMessage(message: Message, pushes: bool) returns (ok: bool)
      modifies this`queue
      ensures ok == pushes
      ensures View() == if ok then Step(old(View()), Accept(message)) else old(View())
      ensures queue == if ok then old(queue) + [Raw(message)] else old(queue)
    {
      if pushes {
        queue := queue + [Raw(message)];
      }
      return pushes;
    }

    method PopBatch(batch: int, w: World) returns (messages: seq<Message>)
      modifies this`queue
      ensures queue == old(queue)[PopCount(old(View()), batch, w)..]
      ensures messages == Popped(old(View()), batch, w)
      ensures var taken := |old(queue)| - |queue|;
              && queue == old(queue)[taken..] && messages == Decoded(old(queue)[..taken])
              && taken == (if batch <= 0 then 0
                           else if batch <= |old(queue)| && batch <= w.pops then batch
                           else if |old(queue)| <= w.pops then |old(queue)| else w.pops)
    {
      messages := [];
      var i := 0;
      while i < batch
        invariant 0 <= i <= PopCount(old(View()), batch, w)
        invariant queue == old(queue)[i..] && messages == Decoded(old(queue)[..i])
      {
        if queue == [] || i >= w.pops { break; }
        var entry := queue[0];
        assert old(queue)[..i + 1][..i] == old(queue)[..i];
        queue := queue[1..];
        if entry.Raw? {
          messages := messages + [entry.message];
        }
        i := i + 1;
      }
    }

    /** flushOnce. */
    method FlushOnce(batch: int, w: World)
      modifies this
      ensures View() == Flush(old(View()), batch, w)
    {
      var messages := PopBatch(batch, w);
      if messages == [] {
        NothingPopped(old(View()), batch, w);
        return;
      }
      if w.inserts {
        rows := rows + messages;
      } else {
        Restore(messages, w.failed);
      }
    }

    method Restore(messages: seq<Message>, failed: set<nat>)
      modifies this`queue
      ensures queue == old(queue) + Encoded(Kept(messages, failed))
    {
      hide Encoded, Kept;
      var i := |messages|;
      assert messages[..i] == messages;
      while i > 0
        invariant 0 <= i <= |messages|
        invariant queue + Encoded(Kept(messages[..i], failed)) == old(queue) + Encoded(Kept(messages, failed))
      {
        i := i - 1;
        PushBack(messages, i, failed);
        if i !in failed {
          queue := queue + [Raw(messages[i])];
        }
      }
      NoneLeft(messages, failed);
    }
  }

  lemma PushBack(messages: seq<Message>, i: nat, failed: set<nat>)
    requires i < |messages|
    ensures Encoded(Kept(messages[..i + 1], failed)) ==
            (if i in failed then [] else [Raw(messages[i])]) + Encoded(Kept(messages[..i], failed))
  {
    assert messages[..i + 1][..i] == messages[..i];
  }

  lemma NoneLeft(messages: seq<Message>, failed: set<nat>)
    ensures Encoded(Kept(messages[..0], failed)) == []
  {
  }

  lemma NothingPopped(s: State, batch: int, w: World)
    requires Popped(s, batch, w) == []
    ensures Flush(s, batch, w) == State(s.queue[PopCount(s, batch, w)..], s.rows)
  {
  }

  // ---------- Conservation ----------

  lemma {:induction false} DecodedTogether(a: seq<Entry>, b: seq<Entry>)
    ensures Decoded(a + b) == Decoded(a) + Decoded(b)
  {
    if b == [] {
      assert a + b == a;
    } else {
      DecodedTogether(a, b[..|b| - 1]);
      assert (a + b)[..|a + b| - 1] == a + b[..|b| - 1];
    }
  }

  /** Serializing and decoding again is the identity. */
  lemma {:induction false} DecodeEncode(messages: seq<Message>)
    ensures Decoded(Encoded(messages)) == messages
  {
    if messages != [] {
      DecodeEncode(messages[..|messages| - 1]);
      var entries := Encoded(messages);
      assert entries[..|entries| - 1] == Encoded(messages[..|messages| - 1]);
    }
  }

  lemma {:induction false} KeptOrDropped(messages: seq<Message>, failed: set<nat>)
    ensures multiset(Kept(messages, failed)) + multiset(Dropped(messages, failed)) == multiset(messages)
  {
    if messages != [] {
      KeptOrDropped(messages[..|messages| - 1], failed);
      assert messages == messages[..|messages| - 1] + [messages[|messages| - 1]];
    }
  }

  lemma {:induction false} AllKept(messages: seq<Message>, failed: set<nat>)
    requires NoneFails(messages, failed)
    ensures Kept(messages, failed) == Reversed(messages)
  {
    if messages != [] {
      AllKept(messages[..|messages| - 1], failed);
    }
  }

  /** What is queued after a flush: the rest, then what was pushed back, last popped first. */
  lemma QueueAfter(s: State, batch: int, w: World)
    ensures Decoded(s.queue) == Popped(s, batch, w) + Decoded(s.queue[PopCount(s, batch, w)..])
    ensures Decoded(Flush(s, batch, w).queue) == Decoded(s.queue[PopCount(s, batch, w)..]) +
            if w.inserts then [] else Kept(Popped(s, batch, w), w.failed)
  {
    var n, messages := PopCount(s, batch, w), Popped(s, batch, w);
    assert s.queue == s.queue[..n] + s.queue[n..];
    DecodedTogether(s.queue[..n], s.queue[n..]);
    var back := Kept(messages, w.failed);
    DecodedTogether(s.queue[n..], Encoded(back));
    DecodeEncode(back);
    if w.inserts {
      assert Decoded(s.queue[n..]) + [] == Decoded(s.queue[n..]);
    }
  }

  /** Conservation: whatever fails, every queued message ends up in exactly one place, still
      queued, stored, or lost by a failed restoring push. */
  lemma FlushConserves(s: State, batch: int, w: World)
    ensures var s' := Flush(s, batch, w);
            multiset(Decoded(s'.queue)) + multiset(s'.rows) + multiset(Lost(s, batch, w))
            == multiset(Decoded(s.queue)) + multiset(s.rows)
  {
    hide Decoded, PopCount, Kept, Dropped;
    QueueAfter(s, batch, w);
    var messages := Popped(s, batch, w);
    KeptOrDropped(messages, w.failed);
  }

  /** Nothing is lost exactly when the insert succeeds or no restoring push that is made fails. */
  lemma LostNothingExactly(s: State, batch: int, w: World)
    ensures Lost(s, batch, w) == [] <==> w.inserts || NoneFails(Popped(s, batch, w), w.failed)
  {
    DroppedNothing(Popped(s, batch, w), w.failed);
  }

  lemma {:induction false} DroppedNothing(messages: seq<Message>, failed: set<nat>)
    ensures Dropped(messages, failed) == [] <==> NoneFails(messages, failed)
  {
    if messages != [] {
      DroppedNothing(messages[..|messages| - 1], failed);
    }
  }

  // ---------- Progress ----------

  /** A flush whose pops and insert work stores the oldest messages, a batch of them or all, in
      order, and leaves the others queued. */
  lemma WorkingFlushStores(s: State, batch: nat, w: World)
    requires w.inserts && (batch <= w.pops || |s.queue| <= w.pops)
    ensures var n := if batch <= |s.queue| then batch else |s.queue|;
            Flush(s, batch, w) == State(s.queue[n..], s.rows + Decoded(s.queue[..n]))
  {
  }

  /** States of which each is the one before after a working flush, nothing else having happened. */
  ghost predicate WorkingFlushes(states: seq<State>, batch: nat) {
    forall k | 0 < k < |states| :: FlushedFrom(states[k - 1], states[k], batch)
  }

  ghost predicate FlushedFrom(s: State, s': State, batch: nat) {
    exists w: World :: w.inserts && batch <= w.pops && s' == Flush(s, batch, w)
  }

  /** After `k` working flushes the k * batch oldest messages are stored, in order; so a queue of
      any length is stored after enough of them. */
  lemma {:induction false} WorkingFlushesFinish(states: seq<State>, batch: nat)
    requires states != [] && WorkingFlushes(states, batch)
    ensures var s, last, k := states[0], states[|states| - 1], |states| - 1;
            var n := if k * batch <= |s.queue| then k * batch else |s.queue|;
            last == State(s.queue[n..], s.rows + Decoded(s.queue[..n]))
  {
    var s, last, k := states[0], states[|states| - 1], |states| - 1;
    if k == 0 {
      assert s.queue[..0] == [] && s.queue[0..] == s.queue && s.rows + [] == s.rows;
    } else {
      WorkingFlushesFinish(states[..k], batch);
      assert FlushedFrom(states[k - 1], states[k], batch);
      var w: World :| w.inserts && batch <= w.pops && states[k] == Flush(states[k - 1], batch, w);
      WorkingFlushStores(states[k - 1], batch, w);
      OneBatchMore(s, batch, k - 1);
    }
  }

  lemma OneBatchMore(s: State, batch: nat, k: nat)
    ensures var n := if k * batch <= |s.queue| then k * batch else |s.queue|;
            var m := if (k + 1) * batch <= |s.queue| then (k + 1) * batch else |s.queue|;
            var rest := s.queue[n..];
            var more := if batch <= |rest| then batch else |rest|;
            s.queue[m..] == rest[more..] && s.rows + Decoded(s.queue[..m]) == s.rows + Decoded(s.queue[..n]) + Decoded(rest[..more])
  {
    assert (k + 1) * batch == k * batch + batch;
    var n := if k * batch <= |s.queue| then k * batch else |s.queue|;
    var rest := s.queue[n..];
    var more := if batch <= |rest| then batch else |rest|;
    assert s.queue[..n + more] == s.queue[..n] + rest[..more];
    DecodedTogether(s.queue[..n], rest[..more]);
  }

  // ---------- Order ----------

  /** After a failed insert whose messages all come back, the queue is the rest followed by
      the popped prefix reversed. */
  lemma FailedFlushReverses(s: State, batch: int, w: World)
    requires !w.inserts && NoneFails(Popped(s, batch, w), w.failed)
    ensures Decoded(Flush(s, batch, w).queue) ==
            Decoded(s.queue[PopCount(s, batch, w)..]) + Reversed(Popped(s, batch, w))
  {
    QueueAfter(s, batch, w);
    AllKept(Popped(s, batch, w), w.failed);
  }

  ghost predicate Distinct(messages: seq<Message>) {
    forall i, j | 0 <= i < j < |messages| :: messages[i] != messages[j]
  }

  /** Although the restore loop runs backwards, order survives a failed insert only when
      there is nothing to reorder: no message was popped, or one was and no other is queued. */
  lemma OrderSurvivesExactly(s: State, batch: int, w: World)
    requires !w.inserts && NoneFails(Popped(s, batch, w), w.failed) && Distinct(Decoded(s.queue))
    ensures var n := |Popped(s, batch, w)|;
            Decoded(Flush(s, batch, w).queue) == Decoded(s.queue) <==> n == 0 || n == |Decoded(s.queue)| == 1
  {
    hide Decoded, Reversed;
    FailedFlushReverses(s, batch, w);
    QueueAfter(s, batch, w);
    var messages, rest := Popped(s, batch, w), Decoded(s.queue[PopCount(s, batch, w)..]);
    RotationIsIdentityExactly(messages, rest);
  }

  lemma RotationIsIdentityExactly(messages: seq<Message>, rest: seq<Message>)
    requires Distinct(messages + rest)
    ensures rest + Reversed(messages) == messages + rest <==> messages == [] || |messages + rest| == 1
  {
    var was, now := messages + rest, rest + Reversed(messages);
    if messages == [] {
      assert now == was;
    } else {
      var n := |messages| - 1;
      assert was[n] == messages[n];
      assert Reversed(messages)[0] == messages[n] && now[|rest|] == Reversed(messages)[0];
      if now == was {
        assert was[|rest|] == was[n];
        assert |rest| == n;
        LastOfReversed(messages);
        assert now[|was| - 1] == Reversed(messages)[n] == messages[0] == was[0];
      }
      if |was| == 1 {
        assert rest == [] && now == Reversed(messages) == messages;
      }
    }
  }

  lemma {:induction false} LastOfReversed(messages: seq<Message>)
    requires messages != []
    ensures Reversed(messages)[|messages| - 1] == messages[0]
  {
    if |messages| > 1 {
      LastOfReversed(messages[..|messages| - 1]);
    }
  }

  // ---------- Runs ----------

  datatype Action = Accept(message: Message) | DoFlush(batch: int, world: World)

  function Step(s: State, a: Action): State {
    match a
    case Accept(message) => State(s.queue + [Raw(message)], s.rows)
    case DoFlush(batch, world) => Flush(s, batch, world)
  }

  function Run(actions: seq<Action>): State {
    if actions == [] then State([], []) else Step(Run(actions[..|actions| - 1]), actions[|actions| - 1])
  }

  function Accepted(actions: seq<Action>): seq<Message> {
    if actions == [] then []
    else
      var before, last := Accepted(actions[..|actions| - 1]), actions[|actions| - 1];
      if last.Accept? then before + [last.message] else before
  }

  function LostInRun(actions: seq<Action>): seq<Message> {
    if actions == [] then []
    else
      var before, last := actions[..|actions| - 1], actions[|actions| - 1];
      if last.DoFlush? then LostInRun(before) + Lost(Run(before), last.batch, last.world) else LostInRun(before)
  }

  /** Over every run, the messages accepted are exactly those stored, queued and lost, each
      as often as it was accepted. */
  lemma {:induction false} RunConserves(actions: seq<Action>)
    ensures multiset(Accepted(actions)) ==
            multiset(Run(actions).rows) + multiset(Decoded(Run(actions).queue)) + multiset(LostInRun(actions))
  {
    hide Flush, Lost;
    if actions != [] {
      var before, last := actions[..|actions| - 1], actions[|actions| - 1];
      RunConserves(before);
      var s := Run(before);
      match last
      case Accept(message) =>
        DecodedTogether(s.queue, [Raw(message)]);
        DecodeEncode([message]);
        assert Encoded([message]) == [Raw(message)];
      case DoFlush(batch, world) =>
        FlushConserves(s, batch, world);
        assert multiset(LostInRun(actions)) == multiset(LostInRun(before)) + multiset(Lost(s, batch, world));
        MovedAround(multiset(Decoded(s.queue)), multiset(s.rows), multiset(LostInRun(before)),
                    multiset(Decoded(Run(actions).queue)), multiset(Run(actions).rows), multiset(Lost(s, batch, world)));
    }
  }

  lemma MovedAround(queued: multiset<Message>, rows: multiset<Message>, lost: multiset<Message>,
                    queued': multiset<Message>, rows': multiset<Message>, more: multiset<Message>)
    requires queued' + rows' + more == queued + rows
    ensures rows' + queued' + (lost + more) == rows + queued + lost
  {
    assert rows' + queued' + (lost + more) == (queued' + rows' + more) + lost;
  }

  /** No run stores a message twice: if the accepted messages are distinct, so are the rows. */
  lemma StoredOnce(actions: seq<Action>)
    requires Distinct(Accepted(actions))
    ensures Distinct(Run(actions).rows)
    ensures forall m | m in Run(actions).rows :: m in Accepted(actions) && m !in Decoded(Run(actions).queue)
  {
    hide Run, Accepted, Decoded, LostInRun, Distinct;
    RunConserves(actions);
    var rows, queued := Run(actions).rows, Decoded(Run(actions).queue);
    DistinctMeansOnce(Accepted(actions));
    SumsOfOnce(multiset(rows), multiset(queued), multiset(LostInRun(actions)), multiset(Accepted(actions)));
    OnceMeansDistinct(rows);
    assert forall m :: m in rows <==> m in multiset(rows);
    assert forall m :: m in queued <==> m in multiset(queued);
  }

  lemma SumsOfOnce(a: multiset<Message>, b: multiset<Message>, c: multiset<Message>, sum: multiset<Message>)
    requires sum == a + b + c && forall m :: sum[m] <= 1
    ensures forall m :: a[m] <= 1
    ensures forall m | m in a :: m in sum && m !in b
  {
    forall m ensures a[m] + b[m] <= 1 {
      assert sum[m] == a[m] + b[m] + c[m];
    }
  }

  lemma {:induction false} DistinctMeansOnce(messages: seq<Message>)
    requires Distinct(messages)
    ensures forall m :: multiset(messages)[m] <= 1
  {
    if messages != [] {
      var before, last := messages[..|messages| - 1], messages[|messages| - 1];
      DistinctMeansOnce(before);
      assert messages == before + [last];
      assert last !in before;
    }
  }

  lemma OnceMeansDistinct(messages: seq<Message>)
    ensures (forall m :: multiset(messages)[m] <= 1) ==> Distinct(messages)
  {
    forall i, j | 0 <= i < j < |messages| && messages[i] == messages[j] ensures multiset(messages)[messages[i]] >= 2 {
      assert messages == messages[..j] + [messages[j]] + messages[j + 1..];
      assert messages[..j][i] == messages[i];
      assert messages[i] in multiset(messages[..j]);
    }
  }
}
