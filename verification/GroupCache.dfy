/** The write-back cache of group members: Redis sets with TTLs, a dirty zset, and the
    MySQL rows behind them (internal/meta/chat/group/cache.go, flusher.go, repo.go).
    Each cache operation is one step, and every command in it may fail: the outcome of a
    step says how far it got. GroupStore proves that the code is these steps. */
module GroupCache {
  import opened GoInt
  import opened Wrappers

  datatype Config = Config(cacheTTL: int, postFlushTTL: int)

  /** `ttl` holds the deadline of the keys that have one; a key without one is persistent.
      `dirty` is the zset of dirty rooms by the time they were last marked; `db` the rows. */
  datatype Cache = Cache(
    members: map<int64, set<int64>>,
    ttl: map<int64, int>,
    dirty: map<int64, int>,
    db: map<int64, set<int64>>,
    now: int,
    config: Config)

  predicate ValidConfig(c: Cache) {
    c.config.cacheTTL > 0 && c.config.postFlushTTL > 0
  }

  // ---------- Redis commands ----------

  function Members(c: Cache, room: int64): set<int64> {
    if room in c.members then c.members[room] else {}
  }

  function Rows(c: Cache, room: int64): set<int64> {
    if room in c.db then c.db[room] else {}
  }

  /** SADD keeps the TTL of an existing key; a new key has none. */
  function SAdd(c: Cache, room: int64, users: set<int64>): Cache {
    c.(members := c.members[room := Members(c, room) + users])
  }

  /** SREM; a set that becomes empty is no key at all. */
  function SRem(c: Cache, room: int64, user: int64): Cache {
    if room !in c.members then c
    else if c.members[room] - {user} == {} then c.(members := c.members - {room}, ttl := c.ttl - {room})
    else c.(members := c.members[room := c.members[room] - {user}])
  }

  function Persist(c: Cache, room: int64): Cache {
    c.(ttl := c.ttl - {room})
  }

  function Expire(c: Cache, room: int64, seconds: int): Cache {
    if room in c.members then c.(ttl := c.ttl[room := c.now + seconds]) else c
  }

  function MarkDirty(c: Cache, room: int64): Cache {
    c.(dirty := c.dirty[room := c.now])
  }

  // ---------- Cache operations ----------

  /** How far a write gets before one of its commands fails: not to the member set, not to the
      dirty mark, not to making the key persistent, or to the end. */
  datatype Reach = NotStored | Stored | Marked | Kept

  /** AddRoomMemberCache and AddRoomMembersCache; SADD without members is an error. */
  function Add(c: Cache, room: int64, users: set<int64>, reach: Reach): (after: Cache)
    ensures after.now == c.now && after.config == c.config
  {
    if users == {} || reach.NotStored? then c
    else
      var stored := SAdd(c, room, users);
      match reach
      case Stored => stored
      case Marked => MarkDirty(stored, room)
      case _ => Persist(MarkDirty(stored, room), room)
  }

  /** RemoveRoomMemberCache; `expires` tells whether EXPIRE worked on the way to PERSIST. */
  function Remove(c: Cache, room: int64, user: int64, reach: Reach, expires: bool): (after: Cache)
    ensures after.now == c.now && after.config == c.config
  {
    var stored := SRem(c, room, user);
    var marked := MarkDirty(stored, room);
    var expiring := if expires then Expire(marked, room, c.config.cacheTTL) else marked;
    match reach
    case NotStored => c
    case Stored => stored
    case Marked => expiring
    case Kept => Persist(expiring, room)
  }

  /** Whether the ZSCORE and the EXPIRE or PERSIST of a read work. */
  datatype Access = Access(scored: bool, renewed: bool)

  const WORKING: Access := Access(true, true)

  /** What reading a key does to its TTL. A failing ZSCORE is taken for a clean key. */
  function Touch(c: Cache, room: int64, access: Access): (after: Cache)
    ensures after.now == c.now && after.config == c.config
  {
    if !access.renewed then c
    else if access.scored && room in c.dirty && c.dirty[room] > 0 then Persist(c, room)
    else Expire(c, room, c.config.cacheTTL)
  }

  /** Whether a query can read the cache and fill it, and which rows it gets to, if the query
      works at all: an iteration that a lost connection cuts short ends like a complete one. */
  datatype Able = Able(cache: bool, access: Access, rows: Option<set<int64>>, fills: bool)

  function RowsRead(c: Cache, room: int64, able: Able): set<int64> {
    if able.rows.Some? then Rows(c, room) * able.rows.value else {}
  }

  /** QueryRoomMemberIDs: when the cache cannot be read, or has nobody, the rows read are the
      answer and are added to the cache. */
  function Query(c: Cache, room: int64, able: Able): (after: Cache)
    ensures after.now == c.now && after.config == c.config
  {
    var c' := if able.cache then Touch(c, room, able.access) else c;
    if (!able.cache || Members(c', room) == {}) && RowsRead(c, room, able) != {} && able.fills
    then SAdd(c', room, RowsRead(c, room, able))
    else c'
  }

  function QueryResult(c: Cache, room: int64, able: Able): Option<set<int64>> {
    if able.cache && Members(c, room) != {} then Some(Members(c, room))
    else if able.rows.Some? then Some(RowsRead(c, room, able))
    else None
  }

  function WriteRows(c: Cache, room: int64): Cache {
    c.(db := c.db[room := Members(c, room)])
  }

  /** What can go wrong in a write-back: reading the cache, the transaction, or the command
      that clears the mark. */
  datatype Outcome = ReadFails | TransactionFails | UnmarkFails | Succeeds

  /** One room of processDirtyGroups. */
  function Flush(c: Cache, room: int64, outcome: Outcome, access: Access): (after: Cache)
    ensures after.now == c.now && after.config == c.config
  {
    match outcome
    case ReadFails => c
    case TransactionFails => Touch(c, room, access)
    case UnmarkFails => WriteRows(Touch(c, room, access), room)
    case Succeeds =>
      var c' := WriteRows(Touch(c, room, access), room);
      Expire(c'.(dirty := c'.dirty - {room}), room, c.config.postFlushTTL)
  }

  /** One room of CleanStaleDirty. writeBackGroup swallows a read error, so the mark is
      cleared although nothing was written. */
  function CleanStale(c: Cache, room: int64, outcome: Outcome, access: Access): (after: Cache)
    ensures after.now == c.now && after.config == c.config
  {
    match outcome
    case ReadFails => c.(dirty := c.dirty - {room})
    case TransactionFails => Touch(c, room, access)
    case UnmarkFails => WriteRows(Touch(c, room, access), room)
    case Succeeds => var c' := WriteRows(Touch(c, room, access), room); c'.(dirty := c'.dirty - {room})
  }

  predicate CanExpire(c: Cache, room: int64) {
    room in c.ttl && c.ttl[room] <= c.now
  }

  function Gone(c: Cache, room: int64): (after: Cache)
    ensures after.now == c.now && after.config == c.config
  {
    if CanExpire(c, room) then c.(members := c.members - {room}, ttl := c.ttl - {room}) else c
  }

  datatype Action =
    | DoAdd(room: int64, users: set<int64>, reach: Reach)
    | DoRemove(room: int64, user: int64, reach: Reach, expires: bool)
    | DoTouch(room: int64, access: Access)
    | DoQuery(room: int64, able: Able)
    | DoFlush(room: int64, outcome: Outcome, access: Access)
    | DoCleanStale(room: int64, outcome: Outcome, access: Access)
    | DoTick(seconds: nat)
    | DoExpire(room: int64)

  function Step(c: Cache, a: Action): Cache {
    match a
    case DoAdd(room, users, reach) => Add(c, room, users, reach)
    case DoRemove(room, user, reach, expires) => Remove(c, room, user, reach, expires)
    case DoTouch(room, access) => Touch(c, room, access)
    case DoQuery(room, able) => Query(c, room, able)
    case DoFlush(room, outcome, access) => if room in c.dirty then Flush(c, room, outcome, access) else c
    case DoCleanStale(room, outcome, access) => if room in c.dirty then CleanStale(c, room, outcome, access) else c
    case DoTick(seconds) => c.(now := c.now + seconds)
    case DoExpire(room) => Gone(c, room)
  }

  // ---------- What states keep, warm or not ----------

  /** A present key that is not dirty agrees with the rows; a dirty key cannot expire. */
  predicate CoherentAt(c: Cache, room: int64) {
    && (room in c.members ==> c.members[room] != {})
    && (room in c.ttl ==> room in c.members)
    && (room in c.dirty ==> room !in c.ttl && c.dirty[room] > 0)
    && (room in c.members && room !in c.dirty ==> c.members[room] == Rows(c, room))
  }

  ghost predicate Coherent(c: Cache) {
    c.now > 0 && ValidConfig(c) && forall room: int64 :: CoherentAt(c, room)
  }

  /** A read takes a dirty key for a clean one and gives it a TTL. */
  predicate Mistakes(c: Cache, room: int64, access: Access) {
    room in c.dirty && room in c.members && !access.scored && access.renewed
  }

  /** A query fills a cold, clean room with some of its rows. */
  predicate FillsPartly(c: Cache, room: int64, able: Able) {
    room !in c.members && room !in c.dirty && able.fills && RowsRead(c, room, able) != {} && RowsRead(c, room, able) != Rows(c, room)
  }

  /** The steps that break coherence: a write that changes the members of a clean key and
      fails before its mark; one that marks a key that has, or just got, a TTL and fails to
      make it persistent; a read that mistakes a dirty key for a clean one, unless a flush
      follows it; a query that fills a cold room with some of its rows only; and clearing a
      stale mark after a failed read. */
  predicate Breaks(c: Cache, a: Action) {
    match a
    case DoAdd(room, users, reach) =>
      users != {} && if reach.Stored? then room !in c.dirty && Members(c, room) + users != Rows(c, room)
                     else reach.Marked? && room in c.ttl
    case DoRemove(room, user, reach, expires) =>
      var left := Members(c, room) - {user};
      left != {} && if reach.Stored? then room !in c.dirty && left != Rows(c, room)
                    else reach.Marked? && (expires || room in c.ttl)
    case DoTouch(room, access) => Mistakes(c, room, access)
    case DoQuery(room, able) => (able.cache && Mistakes(c, room, able.access)) || FillsPartly(c, room, able)
    case DoFlush(room, outcome, access) =>
      (outcome.TransactionFails? || outcome.UnmarkFails?) && Mistakes(c, room, access)
    case DoCleanStale(room, outcome, access) =>
      if outcome.ReadFails? then room in c.dirty && room in c.members && c.members[room] != Rows(c, room)
      else !outcome.Succeeds? && Mistakes(c, room, access)
    case _ => false
  }

  function RoomOf(a: Action): int64
    requires !a.DoTick?
  {
    a.room
  }

  /** The two states agree on everything stored for `room`. */
  predicate SameAt(c: Cache, c': Cache, room: int64) {
    && (room in c'.members <==> room in c.members) && (room in c.members ==> c'.members[room] == c.members[room])
    && (room in c'.ttl <==> room in c.ttl) && (room in c.ttl ==> c'.ttl[room] == c.ttl[room])
    && (room in c'.dirty <==> room in c.dirty) && (room in c.dirty ==> c'.dirty[room] == c.dirty[room])
    && Rows(c', room) == Rows(c, room)
  }

  lemma AddOthers(c: Cache, room: int64, users: set<int64>, reach: Reach, other: int64)
    requires other != room
    ensures SameAt(c, Add(c, room, users, reach), other)
  {
  }

  /** Every single command leaves other rooms alone. */
  lemma CommandsKeepOthers(c: Cache, room: int64, user: int64, seconds: int, other: int64)
    requires other != room
    ensures SameAt(c, SRem(c, room, user), other) && SameAt(c, MarkDirty(c, room), other)
    ensures SameAt(c, Expire(c, room, seconds), other) && SameAt(c, Persist(c, room), other)
  {
  }

  lemma SameTwice(c: Cache, c1: Cache, c2: Cache, other: int64)
    requires SameAt(c, c1, other) && SameAt(c1, c2, other)
    ensures SameAt(c, c2, other)
  {
  }

  lemma RemoveOthers(c: Cache, room: int64, user: int64, reach: Reach, expires: bool, other: int64)
    requires other != room
    ensures SameAt(c, Remove(c, room, user, reach, expires), other)
  {
    hide SRem, MarkDirty, Expire, Persist, SameAt;
    var stored := SRem(c, room, user);
    var marked := MarkDirty(stored, room);
    var expiring := if expires then Expire(marked, room, c.config.cacheTTL) else marked;
    SameItself(c, c, other);
    CommandsKeepOthers(c, room, user, c.config.cacheTTL, other);
    CommandsKeepOthers(stored, room, user, c.config.cacheTTL, other);
    CommandsKeepOthers(marked, room, user, c.config.cacheTTL, other);
    CommandsKeepOthers(expiring, room, user, c.config.cacheTTL, other);
    SameTwice(c, stored, marked, other);
    SameTwice(c, marked, expiring, other);
    SameTwice(c, expiring, Persist(expiring, room), other);
  }

  lemma TouchOthers(c: Cache, room: int64, access: Access, other: int64)
    requires other != room
    ensures SameAt(c, Touch(c, room, access), other)
  {
  }

  lemma QueryOthers(c: Cache, room: int64, able: Able, other: int64)
    requires other != room
    ensures SameAt(c, Query(c, room, able), other)
  {
    hide Touch;
    TouchOthers(c, room, able.access, other);
  }

  lemma FlushOthers(c: Cache, room: int64, outcome: Outcome, access: Access, other: int64)
    requires other != room
    ensures SameAt(c, Flush(c, room, outcome, access), other)
    ensures SameAt(c, CleanStale(c, room, outcome, access), other)
  {
    hide Touch;
    TouchOthers(c, room, access, other);
  }

  lemma GoneOthers(c: Cache, room: int64, other: int64)
    requires other != room
    ensures SameAt(c, Gone(c, room), other)
  {
  }

  lemma SameItself(c: Cache, c': Cache, other: int64)
    requires c' == c.(now := c'.now)
    ensures SameAt(c, c', other)
  {
  }

  /** A step about one room leaves all others alone. */
  lemma {:induction false} OtherRoomsUntouched(c: Cache, a: Action, other: int64)
    requires a.DoTick? || other != RoomOf(a)
    ensures SameAt(c, Step(c, a), other)
  {
    hide Touch, Flush, CleanStale, Add, Remove, Query, Gone, SameAt;
    SameItself(c, c, other);
    match a
    case DoAdd(room, users, reach) => AddOthers(c, room, users, reach, other);
    case DoRemove(room, user, reach, expires) => RemoveOthers(c, room, user, reach, expires, other);
    case DoTouch(room, access) => TouchOthers(c, room, access, other);
    case DoQuery(room, able) => QueryOthers(c, room, able, other);
    case DoFlush(room, outcome, access) => FlushOthers(c, room, outcome, access, other);
    case DoCleanStale(room, outcome, access) => FlushOthers(c, room, outcome, access, other);
    case DoTick(_) => SameItself(c, Step(c, a), other);
    case DoExpire(room) => GoneOthers(c, room, other);
  }

  lemma AddCoherent(c: Cache, a: Action)
    requires c.now > 0 && a.DoAdd? && CoherentAt(c, a.room)
    ensures CoherentAt(Step(c, a), a.room) <==> !Breaks(c, a)
  {
  }

  lemma RemoveCoherent(c: Cache, a: Action)
    requires c.now > 0 && a.DoRemove? && CoherentAt(c, a.room)
    ensures CoherentAt(Step(c, a), a.room) <==> !Breaks(c, a)
  {
  }

  /** A read changes nothing but TTLs, and breaks coherence exactly by a mistake. */
  lemma TouchCoherent(c: Cache, room: int64, access: Access)
    requires c.now > 0 && CoherentAt(c, room)
    ensures CoherentAt(Touch(c, room, access), room) <==> !Mistakes(c, room, access)
    ensures Touch(c, room, access) == c.(ttl := Touch(c, room, access).ttl)
    ensures room in Touch(c, room, access).ttl ==> room in c.members
    ensures room in Touch(c, room, access).ttl && room in c.dirty ==> Mistakes(c, room, access)
  {
  }

  lemma QueryCoherent(c: Cache, room: int64, able: Able)
    requires c.now > 0 && CoherentAt(c, room)
    ensures CoherentAt(Query(c, room, able), room) <==>
            !(able.cache && Mistakes(c, room, able.access)) && !FillsPartly(c, room, able)
  {
    hide Touch;
    TouchCoherent(c, room, able.access);
  }

  lemma FlushCoherent(c: Cache, a: Action)
    requires c.now > 0 && a.DoFlush? && CoherentAt(c, a.room)
    ensures CoherentAt(Step(c, a), a.room) <==> !Breaks(c, a)
  {
    hide Touch;
    TouchCoherent(c, a.room, a.access);
  }

  lemma CleanStaleCoherent(c: Cache, a: Action)
    requires c.now > 0 && a.DoCleanStale? && CoherentAt(c, a.room)
    ensures CoherentAt(Step(c, a), a.room) <==> !Breaks(c, a)
  {
    hide Touch;
    TouchCoherent(c, a.room, a.access);
  }

  lemma {:induction false} OwnRoomCoherent(c: Cache, a: Action)
    requires c.now > 0 && !a.DoTick? && CoherentAt(c, RoomOf(a))
    ensures CoherentAt(Step(c, a), RoomOf(a)) <==> !Breaks(c, a)
  {
    hide Touch, Query, CoherentAt, Mistakes;
    match a
    case DoAdd(_, _, _) => AddCoherent(c, a);
    case DoRemove(_, _, _, _) => RemoveCoherent(c, a);
    case DoTouch(room, access) => TouchCoherent(c, room, access);
    case DoQuery(room, able) => QueryCoherent(c, room, able);
    case DoFlush(_, _, _) => FlushCoherent(c, a);
    case DoCleanStale(_, _, _) => CleanStaleCoherent(c, a);
    case DoExpire(room) => GoneCoherent(c, room);
  }

  lemma GoneCoherent(c: Cache, room: int64)
    requires CoherentAt(c, room)
    ensures CoherentAt(Gone(c, room), room)
  {
  }

  lemma ClockAndConfig(c: Cache, a: Action)
    ensures Step(c, a).config == c.config && Step(c, a).now >= c.now
  {
    hide Add, Remove, Touch, Query, Flush, CleanStale, Gone;
  }

  /** Every step keeps coherence exactly unless it is one of those. */
  lemma StepCoherentExactly(c: Cache, a: Action)
    requires Coherent(c)
    ensures Coherent(Step(c, a)) <==> !Breaks(c, a)
  {
    hide Step, Breaks, CoherentAt;
    ClockAndConfig(c, a);
    if a.DoTick? {
      TickBreaksNothing(c, a);
    } else {
      assert CoherentAt(c, RoomOf(a));
      OwnRoomCoherent(c, a);
    }
    forall room: int64 | a.DoTick? || room != RoomOf(a) ensures CoherentAt(Step(c, a), room) {
      assert CoherentAt(c, room);
      OtherRoomsUntouched(c, a, room);
      SameMeansCoherent(c, Step(c, a), room);
    }
  }

  lemma TickBreaksNothing(c: Cache, a: Action)
    requires a.DoTick?
    ensures !Breaks(c, a)
  {
  }

  lemma SameMeansCoherent(c: Cache, c': Cache, room: int64)
    requires CoherentAt(c, room) && SameAt(c, c', room)
    ensures CoherentAt(c', room)
  {
  }

  // ---------- Safe steps behave like one plain set per room ----------

  function Plain(plain: map<int64, set<int64>>, room: int64): set<int64> {
    if room in plain then plain[room] else {}
  }

  /** The members the adds and removes are meant to produce. A write counts once it has marked
      the room; one that fails before that has reported an error and counts for nothing. */
  function PlainStep(plain: map<int64, set<int64>>, a: Action): map<int64, set<int64>> {
    match a
    case DoAdd(room, users, reach) =>
      if reach.NotStored? || reach.Stored? then plain else plain[room := Plain(plain, room) + users]
    case DoRemove(room, user, reach, _) =>
      if reach.NotStored? || reach.Stored? then plain else plain[room := Plain(plain, room) - {user}]
    case _ => plain
  }

  /** What a reader is told: the cache if it answers, else the rows. */
  function Visible(c: Cache, room: int64): set<int64> {
    if Members(c, room) != {} then Members(c, room) else Rows(c, room)
  }

  predicate FaithfulAt(c: Cache, plain: map<int64, set<int64>>, room: int64) {
    && (room in c.members ==> c.members[room] == Plain(plain, room))
    && (room !in c.members ==> Rows(c, room) == Plain(plain, room) && (room in c.dirty ==> Plain(plain, room) == {}))
  }

  ghost predicate Faithful(c: Cache, plain: map<int64, set<int64>>) {
    Coherent(c) && forall room: int64 :: FaithfulAt(c, plain, room)
  }

  /** When a step is safe, by what can be looked up beforehand and how far it gets. A room is
      warm when its key is present. Adding to a cold room is safe only if the rows hold nobody
      but the added users, removing only if somebody stays in the key or there are no rows; a
      write that fails before its mark must not have changed what readers see; and a query
      that cannot read the cache must not bring anybody back from the rows. */
  predicate Safe(c: Cache, a: Action) {
    !Breaks(c, a) &&
    match a
    case DoAdd(room, users, reach) =>
      users == {} || reach.NotStored?
      || if reach.Stored? then (if room in c.members then users <= c.members[room] else users == Rows(c, room))
         else room in c.members || Rows(c, room) <= users
    case DoRemove(room, user, reach, _) =>
      reach.NotStored?
      || if reach.Stored? then user !in Members(c, room)
                               || (c.members[room] == {user} == Rows(c, room) && room !in c.dirty)
         else (room in c.members && c.members[room] != {user}) || Rows(c, room) == {}
    case DoQuery(room, able) =>
      able.cache || !able.fills || room !in c.members || RowsRead(c, room, able) <= c.members[room]
    case _ => true
  }

  lemma FaithfulMeansVisible(c: Cache, plain: map<int64, set<int64>>, room: int64)
    requires Faithful(c, plain)
    ensures Visible(c, room) == Plain(plain, room)
  {
    assert CoherentAt(c, room) && FaithfulAt(c, plain, room);
  }

  lemma AddFaithful(c: Cache, plain: map<int64, set<int64>>, a: Action)
    requires a.DoAdd? && CoherentAt(c, a.room) && FaithfulAt(c, plain, a.room) && Safe(c, a)
    ensures FaithfulAt(Step(c, a), PlainStep(plain, a), a.room)
  {
  }

  lemma RemoveFaithful(c: Cache, plain: map<int64, set<int64>>, a: Action)
    requires a.DoRemove? && CoherentAt(c, a.room) && FaithfulAt(c, plain, a.room) && Safe(c, a)
    ensures FaithfulAt(Step(c, a), PlainStep(plain, a), a.room)
  {
  }

  lemma ReadFaithful(c: Cache, plain: map<int64, set<int64>>, a: Action)
    requires c.now > 0 && (a.DoTouch? || a.DoQuery?)
    requires CoherentAt(c, a.room) && FaithfulAt(c, plain, a.room) && Safe(c, a)
    ensures FaithfulAt(Step(c, a), plain, a.room)
  {
    hide Touch;
    TouchCoherent(c, a.room, if a.DoTouch? then a.access else a.able.access);
  }

  lemma WriteBackFaithful(c: Cache, plain: map<int64, set<int64>>, room: int64, outcome: Outcome, access: Access)
    requires c.now > 0 && CoherentAt(c, room) && FaithfulAt(c, plain, room) && room in c.dirty
    ensures FaithfulAt(Flush(c, room, outcome, access), plain, room)
    ensures FaithfulAt(CleanStale(c, room, outcome, access), plain, room)
  {
    hide Touch;
    TouchCoherent(c, room, access);
  }

  lemma OwnRoomFaithful(c: Cache, plain: map<int64, set<int64>>, a: Action)
    requires c.now > 0 && !a.DoTick?
    requires CoherentAt(c, RoomOf(a)) && FaithfulAt(c, plain, RoomOf(a)) && Safe(c, a)
    ensures FaithfulAt(Step(c, a), PlainStep(plain, a), RoomOf(a))
  {
    hide Touch, Query, Flush, CleanStale, Safe;
    match a
    case DoAdd(_, _, _) => AddFaithful(c, plain, a);
    case DoRemove(_, _, _, _) => RemoveFaithful(c, plain, a);
    case DoTouch(_, _) => ReadFaithful(c, plain, a);
    case DoQuery(_, _) => ReadFaithful(c, plain, a);
    case DoFlush(room, outcome, access) => if room in c.dirty { WriteBackFaithful(c, plain, room, outcome, access); }
    case DoCleanStale(room, outcome, access) => if room in c.dirty { WriteBackFaithful(c, plain, room, outcome, access); }
    case DoExpire(room) =>
  }

  lemma SameMeansFaithful(c: Cache, c': Cache, plain: map<int64, set<int64>>, a: Action, room: int64)
    requires FaithfulAt(c, plain, room) && SameAt(c, c', room)
    requires a.DoTick? || room != RoomOf(a)
    ensures FaithfulAt(c', PlainStep(plain, a), room)
  {
  }

  /** A safe step keeps cache and rows a faithful picture of the plain sets. */
  lemma SafeStepKeepsFaithful(c: Cache, plain: map<int64, set<int64>>, a: Action)
    requires Faithful(c, plain) && Safe(c, a)
    ensures Faithful(Step(c, a), PlainStep(plain, a))
  {
    hide Step, FaithfulAt, CoherentAt, Coherent, Breaks, PlainStep;
    StepCoherentExactly(c, a);
    if !a.DoTick? {
      assert FaithfulAt(c, plain, RoomOf(a));
      CoherentParts(c, RoomOf(a));
      OwnRoomFaithful(c, plain, a);
    }
    forall room: int64 | a.DoTick? || room != RoomOf(a) ensures FaithfulAt(Step(c, a), PlainStep(plain, a), room) {
      assert FaithfulAt(c, plain, room);
      OtherRoomsUntouched(c, a, room);
      SameMeansFaithful(c, Step(c, a), plain, a, room);
    }
  }

  lemma CoherentParts(c: Cache, room: int64)
    requires Coherent(c)
    ensures c.now > 0 && ValidConfig(c) && CoherentAt(c, room)
  {
  }

  // ---------- The safety condition is exact ----------

  function Flushed(c: Cache, room: int64): Cache {
    Step(c, DoFlush(room, Succeeds, WORKING))
  }

  function UntilDeadline(c: Cache, room: int64): nat {
    if room in c.ttl && c.ttl[room] > c.now then c.ttl[room] - c.now else 0
  }

  /** The key's TTL, if it has one, runs out. */
  function Aged(c: Cache, room: int64): Cache {
    Step(Step(c, DoTick(UntilDeadline(c, room))), DoExpire(room))
  }

  function Read(c: Cache, room: int64): Cache {
    Step(c, DoTouch(room, WORKING))
  }

  /** Readers are told `meant` now, after a flush, after the key's TTL has run out and a flush,
      and after a read whose TTL has run out. */
  predicate StaysVisible(c: Cache, room: int64, meant: set<int64>) {
    && Visible(c, room) == meant
    && Visible(Flushed(c, room), room) == meant
    && Visible(Flushed(Aged(c, room), room), room) == meant
    && Visible(Aged(Read(c, room), room), room) == meant
  }

  /** A dirty key with a TTL: when it has run out, the next flush empties the rows. */
  lemma DirtyKeyWithTTLIsLost(c: Cache, room: int64)
    requires room in c.dirty && room in c.ttl
    ensures Visible(Flushed(Aged(c, room), room), room) == {}
  {
  }

  /** A clean key that differs from its rows: when a reader's TTL has run out, the rows answer. */
  lemma CleanKeyIsLost(c: Cache, room: int64)
    requires room !in c.dirty && room in c.members
    ensures Visible(Aged(Read(c, room), room), room) == Rows(c, room)
  {
    assert room in Read(c, room).ttl;
  }

  lemma TouchShape(c: Cache, room: int64, access: Access)
    ensures Touch(c, room, access) == c.(ttl := Touch(c, room, access).ttl)
    ensures Mistakes(c, room, access) ==> room in Touch(c, room, access).ttl
  {
  }

  lemma ColdFlushEmpties(c: Cache, room: int64)
    requires room in c.dirty && room !in c.members
    ensures Visible(Flushed(c, room), room) == {}
  {
  }

  /** The three ways in which a bad state comes to light: at once, by a flush of a cold dirty
      room, or by the expiry of a dirty key. */
  predicate Exposed(c: Cache, room: int64, meant: set<int64>) {
    Visible(c, room) != meant
    || (meant != {} && room in c.dirty && (room !in c.members || room in c.ttl))
  }

  lemma ExposedShows(c: Cache, room: int64, meant: set<int64>)
    requires Exposed(c, room, meant)
    ensures !StaysVisible(c, room, meant)
  {
    hide Flushed, Aged, Read, Visible;
    if room in c.dirty && room !in c.members { ColdFlushEmpties(c, room); }
    if room in c.dirty && room in c.ttl { DirtyKeyWithTTLIsLost(c, room); }
  }

  lemma UnsafeAddExposed(c: Cache, plain: map<int64, set<int64>>, a: Action)
    requires a.DoAdd? && CoherentAt(c, a.room) && FaithfulAt(c, plain, a.room) && !Safe(c, a)
    ensures Exposed(Step(c, a), a.room, Plain(PlainStep(plain, a), a.room))
  {
  }

  lemma UnsafeRemoveExposed(c: Cache, plain: map<int64, set<int64>>, a: Action)
    requires a.DoRemove? && CoherentAt(c, a.room) && FaithfulAt(c, plain, a.room) && !Safe(c, a)
    ensures Exposed(Step(c, a), a.room, Plain(PlainStep(plain, a), a.room))
  {
  }

  lemma MistakeShows(c: Cache, c': Cache, plain: map<int64, set<int64>>, room: int64)
    requires CoherentAt(c, room) && FaithfulAt(c, plain, room) && room in c.members
    requires room in c'.dirty && room in c'.ttl
    ensures !StaysVisible(c', room, Plain(plain, room))
  {
    ExposedShows(c', room, Plain(plain, room));
  }

  lemma UnsafeReadShows(c: Cache, plain: map<int64, set<int64>>, a: Action)
    requires a.DoTouch? || a.DoQuery?
    requires CoherentAt(c, a.room) && FaithfulAt(c, plain, a.room) && !Safe(c, a)
    ensures !StaysVisible(Step(c, a), a.room, Plain(plain, a.room))
  {
    hide Touch, StaysVisible;
    var access := if a.DoTouch? then a.access else a.able.access;
    TouchShape(c, a.room, access);
    if a.DoQuery? && FillsPartly(c, a.room, a.able) {
      FewerMembersShow(c, Step(c, a), plain, a.room, RowsRead(c, a.room, a.able));
    } else if Breaks(c, a) {
      MistakeShows(c, Step(c, a), plain, a.room);
    } else {
      MoreMembersShow(c, Step(c, a), plain, a.room, RowsRead(c, a.room, a.able));
    }
  }

  lemma MoreMembersShow(c: Cache, c': Cache, plain: map<int64, set<int64>>, room: int64, read: set<int64>)
    requires FaithfulAt(c, plain, room) && room in c.members && !(read <= c.members[room])
    requires Members(c', room) == c.members[room] + read
    ensures !StaysVisible(c', room, Plain(plain, room))
  {
    hide StaysVisible;
    ExposedShows(c', room, Plain(plain, room));
  }

  lemma FewerMembersShow(c: Cache, c': Cache, plain: map<int64, set<int64>>, room: int64, read: set<int64>)
    requires FaithfulAt(c, plain, room) && room !in c.members && read != {} && read != Rows(c, room)
    requires Members(c', room) == read
    ensures !StaysVisible(c', room, Plain(plain, room))
  {
    hide StaysVisible;
    ExposedShows(c', room, Plain(plain, room));
  }

  lemma UnsafeWriteBackShows(c: Cache, plain: map<int64, set<int64>>, a: Action)
    requires a.DoFlush? || a.DoCleanStale?
    requires CoherentAt(c, a.room) && FaithfulAt(c, plain, a.room) && !Safe(c, a)
    ensures !StaysVisible(Step(c, a), a.room, Plain(plain, a.room))
  {
    hide Touch, StaysVisible;
    TouchShape(c, a.room, a.access);
    if a.outcome.ReadFails? {
      LostMarkShows(c, Step(c, a), plain, a.room);
    } else {
      MistakeShows(c, Step(c, a), plain, a.room);
    }
  }

  lemma LostMarkShows(c: Cache, c': Cache, plain: map<int64, set<int64>>, room: int64)
    requires FaithfulAt(c, plain, room) && room in c.members && c.members[room] != Rows(c, room)
    requires room !in c'.dirty && room in c'.members && Rows(c', room) == Rows(c, room)
    ensures !StaysVisible(c', room, Plain(plain, room))
  {
    hide Flushed, Aged, Read;
    CleanKeyIsLost(c', room);
  }

  lemma SafeStays(c: Cache, plain: map<int64, set<int64>>, room: int64)
    requires Faithful(c, plain)
    ensures StaysVisible(c, room, Plain(plain, room))
  {
    hide Step, Faithful;
    FaithfulMeansVisible(c, plain, room);
    FlushedFaithful(c, plain, room);
    AgedFaithful(c, plain, room);
    FlushedFaithful(Aged(c, room), plain, room);
    SafeStepKeepsFaithful(c, plain, DoTouch(room, WORKING));
    AgedFaithful(Read(c, room), plain, room);
    FaithfulMeansVisible(Flushed(c, room), plain, room);
    FaithfulMeansVisible(Flushed(Aged(c, room), room), plain, room);
    FaithfulMeansVisible(Aged(Read(c, room), room), plain, room);
  }

  lemma FlushedFaithful(c: Cache, plain: map<int64, set<int64>>, room: int64)
    requires Faithful(c, plain)
    ensures Faithful(Flushed(c, room), plain)
  {
    hide Step, Faithful;
    SafeStepKeepsFaithful(c, plain, DoFlush(room, Succeeds, WORKING));
  }

  lemma AgedFaithful(c: Cache, plain: map<int64, set<int64>>, room: int64)
    requires Faithful(c, plain)
    ensures Faithful(Aged(c, room), plain)
  {
    hide Step, Faithful;
    var tick := DoTick(UntilDeadline(c, room));
    SafeStepKeepsFaithful(c, plain, tick);
    SafeStepKeepsFaithful(Step(c, tick), plain, DoExpire(room));
  }

  lemma UnsafeShows(c: Cache, plain: map<int64, set<int64>>, a: Action)
    requires !a.DoTick? && CoherentAt(c, RoomOf(a)) && FaithfulAt(c, plain, RoomOf(a)) && !Safe(c, a)
    ensures !StaysVisible(Step(c, a), RoomOf(a), Plain(PlainStep(plain, a), RoomOf(a)))
  {
    hide Step, StaysVisible, CoherentAt, FaithfulAt, Exposed, Safe;
    match a
    case DoAdd(_, _, _) =>
      UnsafeAddExposed(c, plain, a);
      ExposedShows(Step(c, a), a.room, Plain(PlainStep(plain, a), a.room));
    case DoRemove(_, _, _, _) =>
      UnsafeRemoveExposed(c, plain, a);
      ExposedShows(Step(c, a), a.room, Plain(PlainStep(plain, a), a.room));
    case DoTouch(_, _) => UnsafeReadShows(c, plain, a);
    case DoQuery(_, _) => UnsafeReadShows(c, plain, a);
    case DoFlush(_, _, _) => UnsafeWriteBackShows(c, plain, a);
    case DoCleanStale(_, _, _) => UnsafeWriteBackShows(c, plain, a);
    case DoExpire(_) => ExpiryIsSafe(c, a);
  }

  lemma ExpiryIsSafe(c: Cache, a: Action)
    requires a.DoExpire?
    ensures Safe(c, a)
  {
  }

  /** The condition is exact: a step of any kind, failing anywhere, is safe if and only if
      readers are told the plain set at once, after a flush and after any TTL has run out. */
  lemma SafeExactly(c: Cache, plain: map<int64, set<int64>>, a: Action)
    requires Faithful(c, plain) && !a.DoTick?
    ensures Safe(c, a) <==> StaysVisible(Step(c, a), RoomOf(a), Plain(PlainStep(plain, a), RoomOf(a)))
  {
    hide Step, StaysVisible, Safe, CoherentAt, FaithfulAt;
    if Safe(c, a) {
      SafeStepKeepsFaithful(c, plain, a);
      SafeStays(Step(c, a), PlainStep(plain, a), RoomOf(a));
    } else {
      CoherentParts(c, RoomOf(a));
      assert FaithfulAt(c, plain, RoomOf(a));
      UnsafeShows(c, plain, a);
    }
  }

  /** A mark lost by a failed read is harmless until the key expires, which it now can:
      the members written since the last flush are gone. */
  lemma LostMarkLosesMembers(c: Cache, plain: map<int64, set<int64>>, room: int64)
    requires Faithful(c, plain) && Breaks(c, DoCleanStale(room, ReadFails, WORKING))
    ensures var c' := Step(c, DoCleanStale(room, ReadFails, WORKING));
            Visible(c', room) == Plain(plain, room) && Visible(Aged(Read(c', room), room), room) == Rows(c, room)
  {
    hide Aged, Read;
    assert FaithfulAt(c, plain, room) && CoherentAt(c, room);
    CleanKeyIsLost(Step(c, DoCleanStale(room, ReadFails, WORKING)), room);
  }

  /** One failing ZSCORE in a read of a dirty room: if nobody reads or writes the room for the
      lifetime of its key, the next flush deletes its members from the database. */
  lemma FailedScoreEmptiesRows(c: Cache, room: int64)
    requires Coherent(c) && room in c.dirty && room in c.members
    ensures var lost := Flushed(Aged(Step(c, DoTouch(room, Access(false, true))), room), room);
            Rows(lost, room) == {} && Members(lost, room) == {}
  {
    assert CoherentAt(c, room);
  }

  /** The membership test asks the cache alone: it is right exactly when the room is warm or
      the user is not in the rows. */
  lemma MembershipTestExactly(c: Cache, plain: map<int64, set<int64>>, room: int64, user: int64)
    requires Faithful(c, plain)
    ensures (user in Members(c, room) <==> user in Plain(plain, room)) <==> room in c.members || user !in Rows(c, room)
  {
    assert FaithfulAt(c, plain, room) && CoherentAt(c, room);
  }

  /** A reader whose query cannot reach the cache is told the rows it reads: the plain set
      exactly if it reads all of it, and the room is cold or its key has no others. */
  lemma UnreadableExactly(c: Cache, plain: map<int64, set<int64>>, room: int64, able: Able)
    requires Faithful(c, plain) && !able.cache && able.rows.Some?
    ensures QueryResult(c, room, able) == Some(Plain(plain, room)) <==>
            if room in c.members then RowsRead(c, room, able) == c.members[room] else Rows(c, room) <= able.rows.value
  {
    assert FaithfulAt(c, plain, room);
    ReadsAll(c, room, able);
  }

  lemma ReadsAll(c: Cache, room: int64, able: Able)
    requires able.rows.Some?
    ensures RowsRead(c, room, able) == Rows(c, room) <==> Rows(c, room) <= able.rows.value
  {
  }

  /** A query of a cold room whose iteration breaks off: after the next write and flush the
      members it did not get to are gone from the database. */
  lemma PartialFillLosesRows(c: Cache, room: int64, seen: set<int64>, user: int64)
    requires Coherent(c) && room !in c.members && room !in c.dirty
    requires Rows(c, room) * seen != {}
    ensures var filled := Step(c, DoQuery(room, Able(true, WORKING, Some(seen), true)));
            var written := Step(filled, DoAdd(room, {user}, Kept));
            Rows(Flushed(written, room), room) == Rows(c, room) * seen + {user}
  {
    assert CoherentAt(c, room);
  }

  /** A write-back whose read or transaction fails changes neither rows nor marks nor members. */
  lemma FailedWriteBackChangesNothing(c: Cache, room: int64, outcome: Outcome, access: Access)
    requires outcome.ReadFails? || outcome.TransactionFails?
    ensures var c' := Flush(c, room, outcome, access); c'.db == c.db && c'.dirty == c.dirty && c'.members == c.members
    ensures var c' := CleanStale(c, room, TransactionFails, access);
            c'.db == c.db && c'.dirty == c.dirty && c'.members == c.members
  {
  }

  // ---------- Runs ----------

  function Run(c: Cache, actions: seq<Action>): Cache {
    if actions == [] then c else Step(Run(c, actions[..|actions| - 1]), actions[|actions| - 1])
  }

  function PlainRun(plain: map<int64, set<int64>>, actions: seq<Action>): map<int64, set<int64>> {
    if actions == [] then plain else PlainStep(PlainRun(plain, actions[..|actions| - 1]), actions[|actions| - 1])
  }

  predicate SafeRun(c: Cache, actions: seq<Action>) {
    actions == [] ||
    (SafeRun(c, actions[..|actions| - 1]) && Safe(Run(c, actions[..|actions| - 1]), actions[|actions| - 1]))
  }

  /** Nothing cached yet, whatever the rows are. */
  predicate Cold(c: Cache) {
    c.members == map[] && c.ttl == map[] && c.dirty == map[] && c.now > 0 && ValidConfig(c)
  }

  lemma {:induction false} RunKeepsFaithful(c: Cache, plain: map<int64, set<int64>>, actions: seq<Action>)
    requires Faithful(c, plain) && SafeRun(c, actions)
    ensures Faithful(Run(c, actions), PlainRun(plain, actions))
  {
    hide Safe, Step, PlainStep, Faithful;
    if actions != [] {
      var before := actions[..|actions| - 1];
      RunKeepsFaithful(c, plain, before);
      SafeStepKeepsFaithful(Run(c, before), PlainRun(plain, before), actions[|actions| - 1]);
    }
  }

  lemma ColdIsFaithful(c: Cache)
    requires Cold(c)
    ensures Faithful(c, c.db)
  {
    assert forall room: int64 :: CoherentAt(c, room) && FaithfulAt(c, c.db, room);
  }

  /** Write-back refinement: over every run of safe steps, with any interleaving of reads,
      flushes that succeed or fail at any point, stale cleaning, clock ticks and expiries, a
      reader of any room is told exactly the plain set of its members, if and only if the
      cache answers or the reader gets to all rows. */
  lemma {:induction false} ReadersSeePlainSets(c: Cache, actions: seq<Action>, room: int64, able: Able)
    requires Cold(c) && SafeRun(c, actions) && able.cache && able.rows.Some?
    ensures var c' := Run(c, actions);
            QueryResult(c', room, able) == Some(Plain(PlainRun(c.db, actions), room))
            <==> Members(c', room) != {} || Rows(c', room) <= able.rows.value
  {
    hide Run, PlainRun, SafeRun, Cold;
    ColdIsFaithful(c);
    RunKeepsFaithful(c, c.db, actions);
    FaithfulMeansVisible(Run(c, actions), PlainRun(c.db, actions), room);
    ReadsAll(Run(c, actions), room, able);
  }

  predicate NothingBreaks(c: Cache, actions: seq<Action>) {
    actions == [] ||
    (NothingBreaks(c, actions[..|actions| - 1]) && !Breaks(Run(c, actions[..|actions| - 1]), actions[|actions| - 1]))
  }

  /** Without any warmth hypothesis, as long as no step breaks it: dirty keys never carry a
      TTL, and present keys that are not dirty equal their rows. */
  lemma {:induction false} EveryRunIsCoherent(c: Cache, actions: seq<Action>)
    requires Cold(c) && NothingBreaks(c, actions)
    ensures Coherent(Run(c, actions))
  {
    hide Step, Breaks;
    if actions != [] {
      EveryRunIsCoherent(c, actions[..|actions| - 1]);
      StepCoherentExactly(Run(c, actions[..|actions| - 1]), actions[|actions| - 1]);
    }
  }

  /** How long a present key lives. A dirty one gets a lifetime only from a read whose ZSCORE
      fails; a clean one lives for the cache TTL from the last read that could renew it, and
      by its old deadline otherwise; a flushed one for the short TTL from its flush. */
  lemma KeyLifetimes(c: Cache, room: int64, seconds: nat, access: Access)
    requires Coherent(c) && room in c.members
    ensures var read := Step(Step(c, DoTouch(room, access)), DoTick(seconds));
            CanExpire(read, room) <==>
            if access.renewed then (room !in c.dirty || !access.scored) && seconds >= c.config.cacheTTL
            else room in c.ttl && c.ttl[room] <= c.now + seconds
    ensures var flushed := Step(Step(c, DoFlush(room, Succeeds, access)), DoTick(seconds));
            room in c.dirty ==> (CanExpire(flushed, room) <==> seconds >= c.config.postFlushTTL)
  {
    assert CoherentAt(c, room);
  }

  // ---------- Writes in the middle of a flush ----------

  /** COMMIT of a flush whose read saw `snapshot`. */
  function Commit(c: Cache, room: int64, snapshot: set<int64>): Cache {
    c.(db := c.db[room := snapshot])
  }

  /** The pipeline that clears the mark and sets the TTL. */
  function Unmark(c: Cache, room: int64): Cache {
    Expire(c.(dirty := c.dirty - {room}), room, c.config.postFlushTTL)
  }

  /** The step is no flush of the room. */
  predicate SparesMark(a: Action, room: int64) {
    (a.DoFlush? || a.DoCleanStale?) ==> a.room != room
  }

  predicate KeepsMark(actions: seq<Action>, room: int64) {
    forall k | 0 <= k < |actions| :: SparesMark(actions[k], room)
  }

  lemma StepKeepsMark(c: Cache, a: Action, room: int64)
    requires room in c.dirty && SparesMark(a, room)
    ensures room in Step(c, a).dirty
  {
    hide Flush, CleanStale;
    if !a.DoTick? && RoomOf(a) != room { OtherRoomsUntouched(c, a, room); }
  }

  lemma {:induction false} RunKeepsMark(c: Cache, actions: seq<Action>, room: int64)
    requires room in c.dirty && KeepsMark(actions, room)
    ensures room in Run(c, actions).dirty
  {
    hide Step;
    if actions != [] {
      var n := |actions| - 1;
      RunKeepsMark(c, actions[..n], room);
      assert SparesMark(actions[n], room);
      StepKeepsMark(Run(c, actions[..n]), actions[n], room);
    }
  }

  /** Between the flush's read and its end: the room stays marked, and its key has all plain
      members and, apart from these, at most some that the flush has seen. */
  predicate Flushing(c: Cache, plain: map<int64, set<int64>>, room: int64, snapshot: set<int64>) {
    && room in c.dirty && Plain(plain, room) <= Members(c, room) <= Plain(plain, room) + snapshot
    && (room !in c.members ==> Plain(plain, room) == {})
  }

  lemma AddGoesOn(c: Cache, plain: map<int64, set<int64>>, a: Action, snapshot: set<int64>)
    requires a.DoAdd?
    requires CoherentAt(c, a.room) && Safe(c, a) && Flushing(c, plain, a.room, snapshot) && Rows(c, a.room) <= snapshot
    ensures Flushing(Step(c, a), PlainStep(plain, a), a.room, snapshot) && Rows(Step(c, a), a.room) == Rows(c, a.room)
  {
  }

  lemma RemoveGoesOn(c: Cache, plain: map<int64, set<int64>>, a: Action, snapshot: set<int64>)
    requires a.DoRemove?
    requires CoherentAt(c, a.room) && Safe(c, a) && Flushing(c, plain, a.room, snapshot) && Rows(c, a.room) <= snapshot
    ensures Flushing(Step(c, a), PlainStep(plain, a), a.room, snapshot) && Rows(Step(c, a), a.room) == Rows(c, a.room)
  {
  }

  lemma ReadsGoOn(c: Cache, plain: map<int64, set<int64>>, a: Action, snapshot: set<int64>)
    requires a.DoTouch? || a.DoQuery? || a.DoExpire?
    requires CoherentAt(c, a.room) && Flushing(c, plain, a.room, snapshot) && Rows(c, a.room) <= snapshot
    ensures Flushing(Step(c, a), plain, a.room, snapshot) && Rows(Step(c, a), a.room) == Rows(c, a.room)
  {
  }

  lemma StepGoesOn(c: Cache, plain: map<int64, set<int64>>, a: Action, room: int64, snapshot: set<int64>)
    requires Coherent(c) && Safe(c, a) && SparesMark(a, room)
    requires Flushing(c, plain, room, snapshot) && Rows(c, room) <= snapshot
    ensures Coherent(Step(c, a))
    ensures Flushing(Step(c, a), PlainStep(plain, a), room, snapshot) && Rows(Step(c, a), room) == Rows(c, room)
  {
    hide Step, Safe, CoherentAt, Flushing, PlainStep;
    SafeMeansUnbroken(c, a);
    StepCoherentExactly(c, a);
    CoherentParts(c, room);
    if a.DoTick? || RoomOf(a) != room {
      OtherRoomsUntouched(c, a, room);
      OthersGoOn(c, Step(c, a), plain, a, room, snapshot);
    } else if a.DoAdd? {
      AddGoesOn(c, plain, a, snapshot);
    } else if a.DoRemove? {
      RemoveGoesOn(c, plain, a, snapshot);
    } else {
      ReadsGoOn(c, plain, a, snapshot);
      PlainStays(plain, a);
    }
  }

  lemma SafeMeansUnbroken(c: Cache, a: Action)
    requires Safe(c, a)
    ensures !Breaks(c, a)
  {
  }

  lemma PlainStays(plain: map<int64, set<int64>>, a: Action)
    requires !a.DoAdd? && !a.DoRemove?
    ensures PlainStep(plain, a) == plain
  {
  }

  lemma OthersGoOn(c: Cache, c': Cache, plain: map<int64, set<int64>>, a: Action, room: int64, snapshot: set<int64>)
    requires SameAt(c, c', room) && (a.DoTick? || RoomOf(a) != room) && Flushing(c, plain, room, snapshot)
    ensures Flushing(c', PlainStep(plain, a), room, snapshot) && Rows(c', room) == Rows(c, room)
  {
  }

  lemma {:induction false} RunGoesOn(c: Cache, plain: map<int64, set<int64>>, actions: seq<Action>, room: int64, snapshot: set<int64>)
    requires Coherent(c) && SafeRun(c, actions) && KeepsMark(actions, room)
    requires Flushing(c, plain, room, snapshot) && Rows(c, room) <= snapshot
    ensures var c' := Run(c, actions);
            Coherent(c') && Flushing(c', PlainRun(plain, actions), room, snapshot) && Rows(c', room) == Rows(c, room)
  {
    hide Step, PlainStep, Safe, Coherent, Flushing, SparesMark;
    if actions != [] {
      var n := |actions| - 1;
      RunGoesOn(c, plain, actions[..n], room, snapshot);
      assert SparesMark(actions[n], room);
      StepGoesOn(Run(c, actions[..n]), PlainRun(plain, actions[..n]), actions[n], room, snapshot);
    }
  }

  /** A clean room whose readers are told its rows stays as it is. */
  lemma SettledStays(c: Cache, room: int64, meant: set<int64>)
    requires room !in c.dirty && Rows(c, room) == meant && ValidConfig(c)
    requires room in c.members ==> c.members[room] == meant
    ensures StaysVisible(c, room, meant)
  {
  }

  lemma UnsettledShows(c: Cache, room: int64, meant: set<int64>)
    requires room !in c.dirty && Rows(c, room) != meant
    ensures !StaysVisible(c, room, meant)
  {
    hide Flushed, Aged, Read;
    if room in c.members { CleanKeyIsLost(c, room); }
  }

  lemma UnmarkShape(c: Cache, room: int64)
    ensures var c' := Unmark(c, room);
            room !in c'.dirty && Rows(c', room) == Rows(c, room) && c'.members == c.members && c'.config == c.config
  {
  }

  lemma FlushingNow(c: Cache, plain: map<int64, set<int64>>, room: int64, snapshot: set<int64>)
    requires Faithful(c, plain) && room in c.dirty
    ensures Coherent(Commit(c, room, snapshot)) && Flushing(Commit(c, room, snapshot), plain, room, snapshot)
    ensures Rows(Commit(c, room, snapshot), room) == snapshot
  {
    assert FaithfulAt(c, plain, room);
    forall other: int64 ensures CoherentAt(Commit(c, room, snapshot), other) { assert CoherentAt(c, other); }
  }

  /** A flush reads the members; safe steps of all kinds, by anybody but a flush of the same
      room, happen before it commits them, and more before it clears the mark. Readers go on
      seeing the plain set if and only if it is at the end what the flush has read. Otherwise
      the rows keep the old members, the mark of the change is gone, and the change is lost
      with the key. */
  lemma {:induction false} OverlappedFlushExactly(c: Cache, plain: map<int64, set<int64>>, room: int64,
                                                  before: seq<Action>, after: seq<Action>)
    requires Faithful(c, plain) && room in c.dirty && KeepsMark(before, room) && KeepsMark(after, room)
    requires SafeRun(Step(c, DoTouch(room, WORKING)), before)
    requires SafeRun(Commit(Run(Step(c, DoTouch(room, WORKING)), before), room, Members(c, room)), after)
    ensures var committed := Commit(Run(Step(c, DoTouch(room, WORKING)), before), room, Members(c, room));
            var meant := Plain(PlainRun(PlainRun(plain, before), after), room);
            StaysVisible(Unmark(Run(committed, after), room), room, meant) <==> meant == Plain(plain, room)
  {
    hide Faithful, Run, PlainRun, SafeRun, KeepsMark, StaysVisible, Commit, Unmark, Flushing, Coherent, Step;
    var read, snapshot := Step(c, DoTouch(room, WORKING)), Members(c, room);
    SafeStepKeepsFaithful(c, plain, DoTouch(room, WORKING));
    ReadIsSafe(c, plain, room);
    RunKeepsFaithful(read, plain, before);
    RunKeepsMark(read, before, room);
    var plain1 := PlainRun(plain, before);
    FlushingNow(Run(read, before), plain1, room, snapshot);
    var committed := Commit(Run(read, before), room, snapshot);
    RunGoesOn(committed, plain1, after, room, snapshot);
    var c', meant := Run(committed, after), Plain(PlainRun(plain1, after), room);
    UnmarkShape(c', room);
    if meant == snapshot {
      FlushingAll(c', PlainRun(plain1, after), room, snapshot);
      SettledStays(Unmark(c', room), room, meant);
    } else {
      UnsettledShows(Unmark(c', room), room, meant);
    }
  }

  lemma ReadIsSafe(c: Cache, plain: map<int64, set<int64>>, room: int64)
    requires Faithful(c, plain) && room in c.dirty
    ensures room in Step(c, DoTouch(room, WORKING)).dirty && Members(c, room) == Plain(plain, room)
  {
    assert FaithfulAt(c, plain, room);
  }

  lemma FlushingAll(c: Cache, plain: map<int64, set<int64>>, room: int64, snapshot: set<int64>)
    requires Flushing(c, plain, room, snapshot) && Plain(plain, room) == snapshot && Coherent(c)
    ensures Members(c, room) == snapshot && ValidConfig(c)
  {
  }
}
