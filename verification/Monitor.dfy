/** The sliding-window monitor (pkg/monitor/monitor.go): a ring buffer with running totals,
    proved to be a plain sequence of tasks. Times are milliseconds; the totals are int64 in
    the source, where addition wraps, and unbounded here. */
module Monitor {

  datatype Task = Task(sTime: int, lTime: int, success: bool)

  // ---------- The plain window ----------

  /** A task whose completion time is unset never expires. */
  predicate Expired(t: Task, now: int, windowdur: int) {
    t.lTime != 0 && now - t.lTime >= windowdur
  }

  /** Without the leading expired tasks. */
  function Unexpired(w: seq<Task>, now: int, windowdur: int): (r: seq<Task>)
    ensures |r| <= |w| && r == w[|w| - |r|..]
  {
    if w != [] && Expired(w[0], now, windowdur) then Unexpired(w[1..], now, windowdur) else w
  }

  /** What one insertion does to the window. When the ring is full, head and tail coincide,
      the expiry loop does not run, and a single task makes room. */
  function Insert(w: seq<Task>, maxLen: nat, windowdur: int, now: int, t: Task): seq<Task> {
    (if |w| < maxLen then Unexpired(w, now, windowdur) else if w == [] then [] else w[1..]) + [t]
  }

  /** Exactly the tasks up to the first that has no completion time or one inside the window go. */
  lemma {:induction false} DropsWhatIsOver(w: seq<Task>, now: int, windowdur: int)
    ensures var rest := Unexpired(w, now, windowdur);
            && (rest != [] ==> rest[0].lTime == 0 || now - rest[0].lTime < windowdur)
            && (forall k | 0 <= k < |w| - |rest| :: w[k].lTime != 0 && now - w[k].lTime >= windowdur)
  {
    if w != [] && Expired(w[0], now, windowdur) {
      DropsWhatIsOver(w[1..], now, windowdur);
      var rest := Unexpired(w, now, windowdur);
      forall k | 0 < k < |w| - |rest| ensures w[k].lTime != 0 && now - w[k].lTime >= windowdur {
        assert w[k] == w[1..][k - 1];
      }
    }
  }

  function TimeSum(w: seq<Task>): int {
    if w == [] then 0 else w[0].lTime - w[0].sTime + TimeSum(w[1..])
  }

  function Successes(w: seq<Task>): nat {
    if w == [] then 0 else (if w[0].success then 1 else 0) + Successes(w[1..])
  }

  lemma {:induction false} SumsAppend(w: seq<Task>, t: Task)
    ensures TimeSum(w + [t]) == TimeSum(w) + t.lTime - t.sTime
    ensures Successes(w + [t]) == Successes(w) + if t.success then 1 else 0
  {
    if w != [] {
      assert (w + [t])[1..] == w[1..] + [t];
      SumsAppend(w[1..], t);
    } else {
      assert ([] + [t])[1..] == [];
    }
  }

  // ---------- What the window is over a run ----------

  datatype Arrival = Arrival(task: Task, now: int)

  function Run(arrivals: seq<Arrival>, maxLen: nat, windowdur: int): seq<Task> {
    if arrivals == [] then []
    else
      var last := arrivals[|arrivals| - 1];
      Insert(Run(arrivals[..|arrivals| - 1], maxLen, windowdur), maxLen, windowdur, last.now, last.task)
  }

  function Tasks(arrivals: seq<Arrival>): seq<Task> {
    if arrivals == [] then [] else Tasks(arrivals[..|arrivals| - 1]) + [arrivals[|arrivals| - 1].task]
  }

  ghost predicate IsSuffix(w: seq<Task>, history: seq<Task>) {
    |w| <= |history| && w == history[|history| - |w|..]
  }

  lemma SuffixGrows(w: seq<Task>, history: seq<Task>, kept: seq<Task>, t: Task)
    requires IsSuffix(w, history) && IsSuffix(kept, w)
    ensures IsSuffix(kept + [t], history + [t])
  {
    var now := history + [t];
    assert now[|now| - |kept + [t]|..] == history[|history| - |kept|..] + [t];
  }

  /** Whatever arrives and whatever the clock does, the window is a run of the most recent
      tasks, never longer than the ring, and contains the task that arrived last. */
  lemma {:induction false} WindowIsRecentHistory(arrivals: seq<Arrival>, maxLen: nat, windowdur: int)
    requires maxLen > 0
    ensures var w := Run(arrivals, maxLen, windowdur);
            IsSuffix(w, Tasks(arrivals)) && |w| <= maxLen && (arrivals != [] ==> w != [])
  {
    if arrivals != [] {
      var before, last := arrivals[..|arrivals| - 1], arrivals[|arrivals| - 1];
      WindowIsRecentHistory(before, maxLen, windowdur);
      var w := Run(before, maxLen, windowdur);
      var kept := if |w| < maxLen then Unexpired(w, last.now, windowdur) else w[1..];
      SuffixGrows(w, Tasks(before), kept, last.task);
    }
  }

  function Live(w: seq<Task>, now: int, windowdur: int): seq<Task> {
    if w == [] then [] else (if Expired(w[0], now, windowdur) then [] else [w[0]]) + Live(w[1..], now, windowdur)
  }

  predicate AllLive(w: seq<Task>, now: int, windowdur: int) {
    forall i | 0 <= i < |w| :: !Expired(w[i], now, windowdur)
  }

  /** No expired task stands behind one that is not. */
  predicate ExpiredFirst(w: seq<Task>, now: int, windowdur: int) {
    forall i, j | 0 <= i < j < |w| :: Expired(w[j], now, windowdur) ==> Expired(w[i], now, windowdur)
  }

  lemma {:induction false} AllLiveIsLive(w: seq<Task>, now: int, windowdur: int)
    ensures AllLive(w, now, windowdur) <==> Live(w, now, windowdur) == w
    ensures AllLive(Live(w, now, windowdur), now, windowdur)
    ensures |Live(w, now, windowdur)| <= |w|
  {
    if w != [] {
      AllLiveIsLive(w[1..], now, windowdur);
      assert w == [w[0]] + w[1..];
      assert AllLive(w, now, windowdur) <==> !Expired(w[0], now, windowdur) && AllLive(w[1..], now, windowdur);
    }
  }

  /** Dropping the expired prefix drops every expired task exactly if they all come first. */
  lemma {:induction false} UnexpiredIsLive(w: seq<Task>, now: int, windowdur: int)
    ensures AllLive(Unexpired(w, now, windowdur), now, windowdur) <==> ExpiredFirst(w, now, windowdur)
    ensures Unexpired(w, now, windowdur) == Live(w, now, windowdur) <==> ExpiredFirst(w, now, windowdur)
  {
    AllLiveIsLive(w, now, windowdur);
    if w != [] && Expired(w[0], now, windowdur) {
      UnexpiredIsLive(w[1..], now, windowdur);
      RestExpiredFirst(w, now, windowdur);
    } else if ExpiredFirst(w, now, windowdur) {
      assert w != [] ==> forall j | 0 < j < |w| :: !Expired(w[j], now, windowdur);
    } else {
      assert !AllLive(w, now, windowdur);
    }
  }

  lemma RestExpiredFirst(w: seq<Task>, now: int, windowdur: int)
    requires w != [] && Expired(w[0], now, windowdur)
    ensures ExpiredFirst(w, now, windowdur) <==> ExpiredFirst(w[1..], now, windowdur)
  {
    var rest := w[1..];
    if ExpiredFirst(rest, now, windowdur) {
      forall i, j | 0 <= i < j < |w| && Expired(w[j], now, windowdur) ensures Expired(w[i], now, windowdur) {
        if i > 0 { assert rest[j - 1] == w[j] && rest[i - 1] == w[i]; }
      }
    }
    if ExpiredFirst(w, now, windowdur) {
      forall i, j | 0 <= i < j < |rest| && Expired(rest[j], now, windowdur) ensures Expired(rest[i], now, windowdur) {
        assert rest[j] == w[j + 1] && rest[i] == w[i + 1];
      }
    }
  }

  /** The sliding-window promise and exactly when the code keeps it, for every window. With a
      free slot the result is the live tasks in order and the new one, if and only if no
      expired task stands behind one that is not. In a full ring only the oldest task goes,
      so the promise is kept if and only if no other task has expired. */
  lemma {:induction false} SlidingWindowExactly(w: seq<Task>, maxLen: nat, windowdur: int, now: int, t: Task)
    requires maxLen > 0 && |w| <= maxLen
    ensures AllLive(Insert(w, maxLen, windowdur, now, t), now, windowdur) <==>
            !Expired(t, now, windowdur)
            && if |w| < maxLen then ExpiredFirst(w, now, windowdur) else AllLive(w[1..], now, windowdur)
    ensures |w| < maxLen ==>
              (Insert(w, maxLen, windowdur, now, t) == Live(w, now, windowdur) + [t] <==> ExpiredFirst(w, now, windowdur))
  {
    hide ExpiredFirst;
    UnexpiredIsLive(w, now, windowdur);
    var kept := if |w| < maxLen then Unexpired(w, now, windowdur) else w[1..];
    AllLiveAppends(kept, t, now, windowdur);
    assert kept + [t] == Live(w, now, windowdur) + [t] ==> kept == (kept + [t])[..|kept|] == Live(w, now, windowdur);
  }

  lemma AllLiveAppends(w: seq<Task>, t: Task, now: int, windowdur: int)
    ensures AllLive(w + [t], now, windowdur) <==> AllLive(w, now, windowdur) && !Expired(t, now, windowdur)
  {
    assert (w + [t])[|w|] == t;
    assert forall i | 0 <= i < |w| :: (w + [t])[i] == w[i];
  }

  /** Two tasks that finished in the other order than they arrived: the expired one stays
      behind the live one although there is room. */
  lemma LateArrivalOutlivesWindow(started: int, t: Task)
    ensures var w := [Task(started, 1001, true), Task(started, 1000, true)];
            var after := Insert(w, 3, 1000, 2000, t);
            after == w + [t] && Expired(after[1], 2000, 1000)
  {
  }

  /** Completion times are set and never go back. */
  predicate Ordered(w: seq<Task>) {
    forall i, j | 0 <= i <= j < |w| :: w[i].lTime != 0 && w[i].lTime <= w[j].lTime
  }

  lemma {:induction false} AsManyTasks(arrivals: seq<Arrival>)
    ensures |Tasks(arrivals)| == |arrivals|
  {
    if arrivals != [] { AsManyTasks(arrivals[..|arrivals| - 1]); }
  }

  lemma {:induction false} TaskAt(arrivals: seq<Arrival>, k: nat)
    requires k < |arrivals|
    ensures |Tasks(arrivals)| == |arrivals| && Tasks(arrivals)[k] == arrivals[k].task
  {
    if |arrivals| > 1 {
      TaskAt(arrivals[..|arrivals| - 1], if k < |arrivals| - 1 then k else 0);
    }
  }

  /** If tasks arrive in the order of their completion, expired tasks come first in the window
      of every run, whatever the clock says. */
  lemma {:induction false} OrderedRunsSlide(arrivals: seq<Arrival>, maxLen: nat, windowdur: int, now: int)
    requires maxLen > 0
    requires forall i, j | 0 <= i <= j < |arrivals| ::
               arrivals[i].task.lTime != 0 && arrivals[i].task.lTime <= arrivals[j].task.lTime
    ensures Ordered(Run(arrivals, maxLen, windowdur))
    ensures ExpiredFirst(Run(arrivals, maxLen, windowdur), now, windowdur)
  {
    hide Run, Tasks, ExpiredFirst;
    WindowIsRecentHistory(arrivals, maxLen, windowdur);
    var w, history := Run(arrivals, maxLen, windowdur), Tasks(arrivals);
    AsManyTasks(arrivals);
    forall i, j | 0 <= i <= j < |w| ensures w[i].lTime != 0 && w[i].lTime <= w[j].lTime {
      OrderedAt(arrivals, |history| - |w| + i, |history| - |w| + j);
      assert w[i] == history[|history| - |w| + i] && w[j] == history[|history| - |w| + j];
    }
    OrderedMeansFirst(w, now, windowdur);
  }

  lemma OrderedAt(arrivals: seq<Arrival>, i: nat, j: nat)
    requires i <= j < |arrivals|
    requires arrivals[i].task.lTime != 0 && arrivals[i].task.lTime <= arrivals[j].task.lTime
    ensures |Tasks(arrivals)| == |arrivals|
    ensures Tasks(arrivals)[i].lTime != 0 && Tasks(arrivals)[i].lTime <= Tasks(arrivals)[j].lTime
  {
    TaskAt(arrivals, i);
    TaskAt(arrivals, j);
  }

  lemma OrderedMeansFirst(w: seq<Task>, now: int, windowdur: int)
    requires Ordered(w)
    ensures ExpiredFirst(w, now, windowdur)
  {
  }

  // ---------- The ring ----------

  /** The index `k` places after `head`, for a distance of at most one lap. */
  function Slot(head: int, k: int, n: int): int {
    if head + k < n then head + k else head + k - n
  }

  lemma SlotIsMod(head: int, k: int, n: int)
    requires 0 <= head < n && 0 <= k <= n
    ensures Slot(head, k, n) == (head + k) % n
  {
  }

  /** The tail moves on by one, and no slot of the window is the free one at the tail. */
  lemma NextTail(head: int, count: int, n: int)
    requires 0 <= head < n && 0 <= count < n
    ensures 0 <= Slot(head, count, n) < n && (Slot(head, count, n) + 1) % n == Slot(head, count + 1, n)
    ensures forall k | 0 <= k < count :: Slot(head, k, n) != Slot(head, count, n)
  {
  }

  class Ring {
    ghost var Window: seq<Task>
    var tasks: array<Task>
    const maxLen: nat
    const windowdur: int
    var count: int
    var headindex: int
    var tailindex: int
    var totalTimeCount: int
    var successCount: int

    /** The ring holds the window from head on, tail is `count` places further, and the
        totals are the window's sums. */
    ghost predicate Valid()
      reads this, tasks
    {
      && tasks.Length == maxLen > 0
      && 0 <= headindex < maxLen
      && count == |Window| <= maxLen
      && tailindex == Slot(headindex, count, maxLen)
      && (forall k | 0 <= k < count :: 0 <= Slot(headindex, k, maxLen) < maxLen && tasks[Slot(headindex, k, maxLen)] == Window[k])
      && totalTimeCount == TimeSum(Window)
      && successCount == Successes(Window)
    }

    constructor (maxLen: nat, windowdur: int)
      requires maxLen > 0
      ensures Valid() && fresh(tasks) && Window == [] && this.maxLen == maxLen && this.windowdur == windowdur
    {
      this.maxLen, this.windowdur := maxLen, windowdur;
      tasks := new Task[maxLen](_ => Task(0, 0, false));
      count, headindex, tailindex, totalTimeCount, successCount := 0, 0, 0, 0, 0;
      Window := [];
    }

    /** Averages over exactly the window's tasks. */
    method GetStats() returns (avgTime: real, successRate: real, n: int)
      requires Valid()
      ensures n == |Window|
      ensures n == 0 ==> avgTime == 0.0 && successRate == 0.0
      ensures n > 0 ==> avgTime * n as real == TimeSum(Window) as real
      ensures n > 0 ==> successRate * n as real == Successes(Window) as real && 0.0 <= successRate
    {
      if count == 0 { return 0.0, 0.0, 0; }
      avgTime := totalTimeCount as real / count as real;
      successRate := successCount as real / count as real;
      n := count;
    }

    /** Forgets the oldest task; the `> 0` guards of the source always hold. */
    method DropHead()
      requires Valid() && count > 0
      modifies this`Window, this`count, this`headindex, this`totalTimeCount, this`successCount
      ensures Valid() && Window == old(Window)[1..] && tailindex == old(tailindex)
    {
      var oldTask := tasks[headindex];
      assert Slot(headindex, 0, maxLen) == headindex;
      assert oldTask == Window[0];
      SlotIsMod(headindex, 1, maxLen);
      headindex := (headindex + 1) % maxLen;
      assert count > 0;
      count := count - 1;
      totalTimeCount := totalTimeCount - (oldTask.lTime - oldTask.sTime);
      if oldTask.success {
        assert successCount > 0;
        successCount := successCount - 1;
      }
      Window := Window[1..];
    }

    /** One task received in Run's loop at time `now`. */
    method Receive(t: Task, now: int)
      requires Valid()
      modifies this`Window, this`count, this`headindex, this`tailindex, this`totalTimeCount, this`successCount, tasks
      ensures Valid() && Window == Insert(old(Window), maxLen, windowdur, now, t)
    {
      hide Slot, TimeSum, Successes;
      DropExpired(now);
      if count == maxLen {
        DropHead();
      }
      Append(t);
    }

    /** The expiry loop: a full ring looks like an empty one to its guard. */
    method DropExpired(now: int)
      requires Valid()
      modifies this`Window, this`count, this`headindex, this`totalTimeCount, this`successCount
      ensures Valid() && tailindex == old(tailindex)
      ensures Window == if |old(Window)| < maxLen then Unexpired(old(Window), now, windowdur) else old(Window)
      ensures |old(Window)| < maxLen && Window != [] ==> Window[0].lTime == 0 || now - Window[0].lTime < windowdur
      ensures forall k | 0 <= k < |old(Window)| - |Window| :: old(Window)[k].lTime != 0 && now - old(Window)[k].lTime >= windowdur
    {
      hide TimeSum, Successes;
      DropsWhatIsOver(Window, now, windowdur);
      while headindex != tailindex
        invariant Valid() && tailindex == old(tailindex)
        invariant |old(Window)| == maxLen ==> Window == old(Window)
        invariant |old(Window)| < maxLen ==>
                    count < maxLen && Unexpired(Window, now, windowdur) == Unexpired(old(Window), now, windowdur)
        decreases count
      {
        var oldTask := tasks[headindex];
        assert oldTask == Window[0] by { assert Slot(headindex, 0, maxLen) == headindex; }
        if oldTask.lTime == 0 || now - oldTask.lTime < windowdur { break; }
        DropHead();
      }
    }

    method Append(t: Task)
      requires Valid() && count < maxLen
      modifies this`Window, this`count, this`tailindex, this`totalTimeCount, this`successCount, tasks
      ensures Valid() && Window == old(Window) + [t]
    {
      hide Slot, TimeSum, Successes;
      NextTail(headindex, count, maxLen);
      SumsAppend(Window, t);
      tasks[tailindex] := t;
      tailindex := (tailindex + 1) % maxLen;
      count := count + 1;
      totalTimeCount := totalTimeCount + (t.lTime - t.sTime);
      if t.success {
        successCount := successCount + 1;
      }
      Window := Window + [t];
    }
  }
}
