/** The group cache's code: sequences of Redis commands over mutable state, each operation
    a step of GroupCache; and the flusher's passes
    (internal/meta/chat/group/cache.go, flusher.go, repo.go). */
module GroupStore {
  import opened GoInt
  import opened Wrappers
  import G = GroupCache

  function Elements(ids: seq<int64>): set<int64> {
    if ids == [] then {} else Elements(ids[..|ids| - 1]) + {ids[|ids| - 1]}
  }

  lemma {:induction false} ElementsAre(ids: seq<int64>)
    ensures forall id :: id in Elements(ids) <==> id in ids
    ensures Elements(ids) == {} <==> ids == []
  {
    hide Elements;
    forall id ensures id in Elements(ids) <==> id in ids { ElementIs(ids, id); }
    if ids != [] {
      ElementIs(ids, ids[0]);
    } else if id :| id in Elements(ids) {
      ElementIs(ids, id);
    }
  }

  lemma {:induction false} ElementIs(ids: seq<int64>, id: int64)
    ensures id in Elements(ids) <==> id in ids
  {
    if ids != [] {
      ElementIs(ids[..|ids| - 1], id);
      assert ids == ids[..|ids| - 1] + [ids[|ids| - 1]];
    }
  }

  lemma ElementsAppended(ids: seq<int64>, id: int64)
    ensures Elements(ids + [id]) == Elements(ids) + {id}
  {
    assert (ids + [id])[..|ids|] == ids;
  }

  // ---------- Which rooms a pass takes ----------

  /** The size of `ZRANGE key 0 n-1` over `size` members: a negative stop counts from the end. */
  function RangeSize(n: int, size: nat): (taken: nat)
    ensures taken <= size
  {
    if n >= 1 then (if n < size then n else size) else if size + n >= 0 then size + n else 0
  }

  /** Ascending by score, and nothing left out is older than anything taken; the order of
      equal scores is left open. */
  ghost predicate Oldest(dirty: map<int64, int>, ids: seq<int64>, n: int) {
    && |ids| == RangeSize(n, |dirty|)
    && (forall i | 0 <= i < |ids| :: ids[i] in dirty)
    && (forall i, j | 0 <= i < j < |ids| :: ids[i] != ids[j] && dirty[ids[i]] <= dirty[ids[j]])
    && (forall i, room | 0 <= i < |ids| && room in dirty && room !in ids :: dirty[ids[i]] <= dirty[room])
  }

  /** The rooms taken so far, oldest first, and the ones still to choose from. */
  ghost predicate Taken(dirty: map<int64, int>, ids: seq<int64>, left: set<int64>) {
    && left == dirty.Keys - Elements(ids)
    && |left| + |ids| == |dirty|
    && (forall i | 0 <= i < |ids| :: ids[i] in dirty)
    && (forall i, j | 0 <= i < j < |ids| :: ids[i] != ids[j] && dirty[ids[i]] <= dirty[ids[j]])
    && (forall i, room | 0 <= i < |ids| && room in left :: ids[i] != room && dirty[ids[i]] <= dirty[room])
  }

  lemma NoneTaken(dirty: map<int64, int>)
    ensures Taken(dirty, [], dirty.Keys)
  {
  }

  lemma TakeNext(dirty: map<int64, int>, ids: seq<int64>, left: set<int64>, next: int64)
    requires Taken(dirty, ids, left) && next in left
    requires forall room | room in left :: room in dirty && dirty[next] <= dirty[room]
    ensures Taken(dirty, ids + [next], left - {next})
  {
    hide Elements;
    ElementsAppended(ids, next);
    var ids' := ids + [next];
    forall i, j | 0 <= i < j < |ids'| ensures ids'[i] != ids'[j] && dirty[ids'[i]] <= dirty[ids'[j]] {
      if j == |ids| { assert ids'[i] == ids[i]; }
    }
  }

  lemma TakenIsOldest(dirty: map<int64, int>, ids: seq<int64>, left: set<int64>, n: int)
    requires Taken(dirty, ids, left) && |ids| == RangeSize(n, |dirty|)
    ensures Oldest(dirty, ids, n)
  {
    hide Elements;
    ElementsAre(ids);
  }

  // ---------- What the commands of an operation amount to ----------

  /** Whether the n-th command of an operation works, retries included; one that does not has
      no effect. */
  type Commands = nat -> bool

  /** SADD group, SADD user, ZADD groups, ZADD users, PERSIST. */
  function AddReach(ok: Commands): G.Reach {
    if !ok(0) then G.NotStored
    else if !ok(1) || !ok(2) then G.Stored
    else if !ok(3) || !ok(4) then G.Marked
    else G.Kept
  }

  /** The SADD and the ZADD of each of the first `n` users. */
  predicate UsersWork(ok: Commands, n: nat) {
    n == 0 || (UsersWork(ok, n - 1) && ok(2 * n) && ok(2 * n + 1))
  }

  /** SADD group and its fallback, two commands per user, ZADD groups, PERSIST. */
  function AddManyReach(ok: Commands, n: nat): G.Reach {
    if !ok(0) && !ok(1) then G.NotStored
    else if !UsersWork(ok, n) || !ok(2 * n + 2) then G.Stored
    else if !ok(2 * n + 3) then G.Marked
    else G.Kept
  }

  /** SREM group, SREM user, ZADD groups, ZADD users, EXPIRE, PERSIST. */
  function RemoveReach(ok: Commands): G.Reach {
    if !ok(0) then G.NotStored
    else if !ok(1) || !ok(2) then G.Stored
    else if !ok(3) || !ok(5) then G.Marked
    else G.Kept
  }

  /** The ZSCORE and the EXPIRE or PERSIST that follow a read. */
  function AccessOf(ok: Commands): G.Access {
    G.Access(ok(1), ok(2))
  }

  /** CREATE TABLE, BEGIN, DELETE, INSERT if there is anything to insert, COMMIT. */
  predicate Commits(ids: set<int64>, ok: Commands) {
    ok(3) && ok(4) && ok(5) && (ids == {} || ok(6)) && ok(7)
  }

  datatype Attempt = Attempt(outcome: G.Outcome, access: G.Access)

  /** A read, the transaction, and the pipeline that clears the mark. */
  function FlushAttempt(members: set<int64>, ok: Commands): Attempt {
    Attempt(if !ok(0) then G.ReadFails
            else if !Commits(members, ok) then G.TransactionFails
            else if !ok(8) then G.UnmarkFails
            else G.Succeeds,
            AccessOf(ok))
  }

  /** The same with ZREM instead of the pipeline. When the read and ZREM both fail, nothing
      happens, as in a transaction that fails after a read that renews nothing. */
  function CleanAttempt(members: set<int64>, ok: Commands): Attempt {
    if !ok(0) && !ok(8) then Attempt(G.TransactionFails, G.Access(true, false)) else FlushAttempt(members, ok)
  }

  function FlushAll(c: G.Cache, ids: seq<int64>, ok: int64 -> Commands): G.Cache {
    if ids == [] then c
    else
      var before, room := FlushAll(c, ids[..|ids| - 1], ok), ids[|ids| - 1];
      var attempt := FlushAttempt(G.Members(before, room), ok(room));
      G.Flush(before, room, attempt.outcome, attempt.access)
  }

  function CleanAll(c: G.Cache, ids: seq<int64>, ok: int64 -> Commands): G.Cache {
    if ids == [] then c
    else
      var before, room := CleanAll(c, ids[..|ids| - 1], ok), ids[|ids| - 1];
      var attempt := CleanAttempt(G.Members(before, room), ok(room));
      G.CleanStale(before, room, attempt.outcome, attempt.access)
  }

  function Listed(userIDs: seq<int64>): set<int64> {
    set user | user in userIDs
  }

  method Distinct(userIDs: seq<int64>) returns (users: set<int64>)
    ensures users == Elements(userIDs) == Listed(userIDs)
  {
    users := {};
    for k := 0 to |userIDs|
      invariant users == Elements(userIDs[..k])
    {
      ElementsAppended(userIDs[..k], userIDs[k]);
      assert userIDs[..k + 1] == userIDs[..k] + [userIDs[k]];
      users := users + {userIDs[k]};
    }
    assert userIDs[..|userIDs|] == userIDs;
    ElementsAre(userIDs);
  }

  /** The two commands of each user, up to the first that fails. */
  method JoinUsers(ok: Commands, n: nat) returns (done: bool)
    ensures done <==> UsersWork(ok, n)
    ensures done <==> forall k | 1 <= k <= n :: ok(2 * k) && ok(2 * k + 1)
  {
    for k := 0 to n
      invariant UsersWork(ok, k) && forall j | 1 <= j <= k :: ok(2 * j) && ok(2 * j + 1)
    {
      if !ok(2 * (k + 1)) || !ok(2 * (k + 1) + 1) {
        if UsersWork(ok, n) { AllUsersWork(ok, k + 1, n); }
        return false;
      }
    }
    return true;
  }

  class Store {
    var members: map<int64, set<int64>>
    var ttl: map<int64, int>
    var dirty: map<int64, int>
    var db: map<int64, set<int64>>
    var now: int
    const config: G.Config

    ghost function View(): G.Cache
      reads this
    {
      G.Cache(members, ttl, dirty, db, now, config)
    }

    constructor (db: map<int64, set<int64>>, now: int, config: G.Config)
      ensures View() == G.Cache(map[], map[], map[], db, now, config)
    {
      members, ttl, dirty := map[], map[], map[];
      this.db, this.now, this.config := db, now, config;
    }

    // ----- Redis commands -----

    method SAdd(room: int64, users: set<int64>)
      modifies this`members
      ensures View() == G.SAdd(old(View()), room, users)
      ensures members == old(members)[room := (if room in old(members) then old(members)[room] else {}) + users]
    {
      members := members[room := (if room in members then members[room] else {}) + users];
    }

    method SRem(room: int64, user: int64)
      modifies this`members, this`ttl
      ensures View() == G.SRem(old(View()), room, user)
    {
      if room in members {
        var left := members[room] - {user};
        if left == {} {
          members, ttl := members - {room}, ttl - {room};
        } else {
          members := members[room := left];
        }
      }
    }

    method Persist(room: int64)
      modifies this`ttl
      ensures View() == G.Persist(old(View()), room)
      ensures ttl == old(ttl) - {room}
    {
      ttl := ttl - {room};
    }

    method Expire(room: int64, seconds: int)
      modifies this`ttl
      ensures View() == G.Expire(old(View()), room, seconds)
      ensures ttl == if room in members then old(ttl)[room := now + seconds] else old(ttl)
    {
      if room in members {
        ttl := ttl[room := now + seconds];
      }
    }

    // ----- cache.go -----

    method AddRoomMember(room: int64, user: int64, ok: Commands) returns (done: bool)
      modifies this`members, this`ttl, this`dirty
      ensures done <==> ok(0) && ok(1) && ok(2) && ok(3)
      ensures View() == G.Add(old(View()), room, {user}, AddReach(ok))
      ensures members == if ok(0) then old(members)[room := (if room in old(members) then old(members)[room] else {}) + {user}] else old(members)
      ensures dirty == if ok(0) && ok(1) && ok(2) then old(dirty)[room := now] else old(dirty)
      ensures ttl == if ok(0) && ok(1) && ok(2) && ok(3) && ok(4) then old(ttl) - {room} else old(ttl)
    {
      if !ok(0) { return false; }
      SAdd(room, {user});
      if !ok(1) { return false; }
      if !ok(2) { return false; }
      dirty := dirty[room := now];
      if !ok(3) { return false; }
      if ok(4) {
        Persist(room);
      }
      return true;
    }

    method AddRoomMembers(room: int64, userIDs: seq<int64>, ok: Commands) returns (done: bool)
      modifies this`members, this`ttl, this`dirty
      ensures done <==> userIDs != [] && (ok(0) || ok(1)) && UsersWork(ok, |userIDs|) && ok(2 * |userIDs| + 2)
      ensures View() == G.Add(old(View()), room, Elements(userIDs), AddManyReach(ok, |userIDs|))
      ensures done <==> userIDs != [] && (ok(0) || ok(1))
                        && (forall k | 1 <= k <= |userIDs| :: ok(2 * k) && ok(2 * k + 1)) && ok(2 * |userIDs| + 2)
      ensures members == if userIDs == [] || (!ok(0) && !ok(1)) then old(members)
                         else old(members)[room := (if room in old(members) then old(members)[room] else {}) + Listed(userIDs)]
      ensures dirty == if done then old(dirty)[room := now] else old(dirty)
      ensures ttl == if done && ok(2 * |userIDs| + 3) then old(ttl) - {room} else old(ttl)
    {
      var users := Distinct(userIDs);
      hide Elements, UsersWork;
      assert users == {} <==> userIDs == [] by { ElementsAre(userIDs); }
      var n := |userIDs|;
      if users == {} || (!ok(0) && !ok(1)) { return false; }
      SAdd(room, users);
      var joined := JoinUsers(ok, n);
      if !joined || !ok(2 * n + 2) { return false; }
      dirty := dirty[room := now];
      if ok(2 * n + 3) {
        Persist(room);
      }
      return true;
    }

    method RemoveRoomMember(room: int64, user: int64, ok: Commands) returns (done: bool)
      modifies this`members, this`ttl, this`dirty
      ensures done <==> ok(0) && ok(1) && ok(2) && ok(3)
      ensures View() == G.Remove(old(View()), room, user, RemoveReach(ok), ok(3) && ok(4))
      ensures var left := if room in old(members) then old(members)[room] - {user} else {};
              && members == (if !ok(0) || room !in old(members) then old(members)
                             else if left == {} then old(members) - {room} else old(members)[room := left])
              && dirty == (if ok(0) && ok(1) && ok(2) then old(dirty)[room := now] else old(dirty))
      ensures var left := if room in old(members) then old(members)[room] - {user} else {};
              var marked := ok(0) && ok(1) && ok(2) && ok(3);
              && (forall other | other != room :: other in ttl <==> other in old(ttl))
              && (forall other | other != room && other in ttl :: ttl[other] == old(ttl)[other])
              && (marked && ok(5) ==> room !in ttl)
              && (marked && !ok(5) && ok(4) && left != {} ==> room in ttl && ttl[room] == now + config.cacheTTL)
              && (!(marked && (ok(4) || ok(5))) && left != {} ==>
                    (room in ttl <==> room in old(ttl)) && (room in ttl ==> ttl[room] == old(ttl)[room]))
    {
      if !ok(0) { return false; }
      SRem(room, user);
      if !ok(1) { return false; }
      if !ok(2) { return false; }
      dirty := dirty[room := now];
      if !ok(3) { return false; }
      if ok(4) {
        Expire(room, config.cacheTTL);
      }
      if ok(5) {
        Persist(room);
      }
      return true;
    }

    /** What follows a read: a ZSCORE that fails counts as a room that is not dirty. */
    method Renew(room: int64, ok: Commands)
      modifies this`ttl
      ensures View() == G.Touch(old(View()), room, AccessOf(ok))
      ensures ttl == if !ok(2) then old(ttl) else if ok(1) && room in dirty && dirty[room] > 0 then old(ttl) - {room}
                     else if room in members then old(ttl)[room := now + config.cacheTTL] else old(ttl)
    {
      if ok(1) && room in dirty && dirty[room] > 0 {
        if ok(2) { Persist(room); }
      } else {
        if ok(2) { Expire(room, config.cacheTTL); }
      }
    }

    method GetRoomMemberIDs(room: int64, ok: Commands) returns (ids: Option<set<int64>>)
      modifies this`ttl
      ensures ids == if ok(0) then Some(G.Members(old(View()), room)) else None
      ensures View() == if ok(0) then G.Touch(old(View()), room, AccessOf(ok)) else old(View())
      ensures ids == if ok(0) then Some(if room in members then members[room] else {}) else None
      ensures ttl == if !ok(0) || !ok(2) then old(ttl) else if ok(1) && room in dirty && dirty[room] > 0 then old(ttl) - {room}
                     else if room in members then old(ttl)[room := now + config.cacheTTL] else old(ttl)
    {
      if !ok(0) { return None; }
      ids := Some(if room in members then members[room] else {});
      Renew(room, ok);
    }

    // ----- repo.go -----

    /** A cache that answers at all is believed, even when it has no such key. */
    method IsRoomMember(room: int64, user: int64, ok: Commands) returns (isMember: Option<bool>)
      modifies this`ttl
      ensures isMember == if ok(0) then Some(user in G.Members(old(View()), room))
                          else if ok(3) then Some(user in G.Rows(old(View()), room)) else None
      ensures View() == if ok(0) then G.Touch(old(View()), room, AccessOf(ok)) else old(View())
      ensures ttl == if !ok(0) || !ok(2) then old(ttl) else if ok(1) && room in dirty && dirty[room] > 0 then old(ttl) - {room}
                     else if room in members then old(ttl)[room := now + config.cacheTTL] else old(ttl)
      ensures isMember == if ok(0) then Some(room in members && user in members[room]) else if ok(3) then Some(room in db && user in db[room]) else None
    {
      if ok(0) {
        isMember := Some(room in members && user in members[room]);
        Renew(room, ok);
        return;
      }
      if !ok(3) { return None; }
      return Some(room in db && user in db[room]);
    }

    /** The iteration over the rows; it ends at the last one or when the connection is lost
        after `upTo` rows, and nobody asks which. */
    method ScanRows(room: int64, upTo: nat) returns (read: set<int64>)
      ensures read <= G.Rows(View(), room) && (|G.Rows(View(), room)| <= upTo ==> read == G.Rows(View(), room))
    {
      var left := if room in db then db[room] else {};
      read := {};
      ghost var rows := left;
      while left != {} && |read| < upTo
        invariant read + left == rows && read !! left && |read| + |left| == |rows|
        decreases |left|
      {
        var user :| user in left;
        read, left := read + {user}, left - {user};
      }
    }

    /** The query of the rows, which fills the cache with what it has seen. */
    method QueryRows(room: int64, upTo: nat, ok: Commands) returns (ids: Option<set<int64>>, ghost read: set<int64>)
      modifies this`members
      ensures var rows := G.Rows(View(), room); read <= rows && (|rows| <= upTo ==> read == rows)
      ensures ids == if ok(3) then Some(read) else None
      ensures View() == if ok(3) && read != {} && ok(4) then G.SAdd(old(View()), room, read) else old(View())
    {
      read := G.Rows(View(), room);
      if !ok(3) { return None, read; }
      var rows := ScanRows(room, upTo);
      read := rows;
      if rows != {} && ok(4) {
        SAdd(room, rows);
      }
      ids := Some(rows);
    }

    method QueryRoomMemberIDs(room: int64, upTo: nat, ok: Commands) returns (ids: Option<set<int64>>, ghost read: set<int64>)
      modifies this`ttl, this`members
      ensures var rows := G.Rows(old(View()), room); read <= rows && (|rows| <= upTo ==> read == rows)
      ensures var able := G.Able(ok(0), AccessOf(ok), if ok(3) then Some(read) else None, ok(4));
              ids == G.QueryResult(old(View()), room, able) && View() == G.Query(old(View()), room, able)
      ensures ids == if ok(0) && G.Members(old(View()), room) != {} then Some(G.Members(old(View()), room))
                     else if ok(3) then Some(read) else None
      ensures members == if ids != Some(read) || (ok(0) && G.Members(old(View()), room) != {}) || read == {} || !ok(4) then old(members)
                         else old(members)[room := G.Members(old(View()), room) + read]
    {
      hide G.Touch;
      read := G.Rows(View(), room);
      var cached := GetRoomMemberIDs(room, ok);
      if cached.Some? && cached.value != {} { return cached, read; }
      ids, read := QueryRows(room, upTo, ok);
      assert G.Rows(old(View()), room) * read == read;
    }

    // ----- flusher.go -----

    /** PopDirtyGroups, which despite its name removes nothing: repeatedly the oldest room
        not taken yet. */
    method PopDirtyGroups(n: int) returns (ids: seq<int64>)
      ensures Oldest(dirty, ids, n)
      ensures |ids| == if 1 <= n <= |dirty| then n else if n >= 1 then |dirty| else if n + |dirty| < 0 then 0 else n + |dirty|
    {
      assert RangeSize(n, |dirty|) == if 1 <= n <= |dirty| then n else if n >= 1 then |dirty|
                                     else if n + |dirty| < 0 then 0 else n + |dirty|;
      hide RangeSize, Elements;
      ids := [];
      var left := dirty.Keys;
      NoneTaken(dirty);
      while |ids| < RangeSize(n, |dirty|)
        invariant Taken(dirty, ids, left) && |ids| <= RangeSize(n, |dirty|)
      {
        SomeMinimum(dirty, left);
        var next :| next in left && forall room | room in left :: dirty[next] <= dirty[room];
        TakeNext(dirty, ids, left, next);
        ids, left := ids + [next], left - {next};
      }
      TakenIsOldest(dirty, ids, left, n);
    }

    /** The transaction: nothing is stored until COMMIT, and a failure rolls back. */
    method WriteBack(room: int64, ids: set<int64>, ok: Commands) returns (committed: bool)
      modifies this`db
      ensures committed <==> Commits(ids, ok)
      ensures db == if committed then old(db)[room := ids] else old(db)
      ensures committed <==> ok(3) && ok(4) && ok(5) && (ids == {} || ok(6)) && ok(7)
    {
      if !ok(3) || !ok(4) { return false; }
      var staged := if room in db then db[room] else {};
      if !ok(5) { return false; }
      staged := {};
      if ids != {} {
        if !ok(6) { return false; }
        staged := staged + ids;
      }
      assert staged == ids;
      if !ok(7) { return false; }
      db := db[room := staged];
      return true;
    }

    method FlushRoom(room: int64, ok: Commands)
      modifies this
      ensures var attempt := FlushAttempt(G.Members(old(View()), room), ok);
              View() == G.Flush(old(View()), room, attempt.outcome, attempt.access)
      ensures var ids := if room in members then members[room] else {};
              var committed := ok(0) && ok(3) && ok(4) && ok(5) && (ids == {} || ok(6)) && ok(7);
              && members == old(members)
              && db == (if committed then old(db)[room := ids] else old(db))
              && dirty == (if committed && ok(8) then old(dirty) - {room} else old(dirty))
              && (committed && ok(8) && room in members ==> room in ttl && ttl[room] == now + config.postFlushTTL)
    {
      var ids := GetRoomMemberIDs(room, ok);
      if ids.None? { return; }
      var committed := WriteBack(room, ids.value, ok);
      if !committed { return; }
      if !ok(8) { return; }
      dirty := dirty - {room};
      Expire(room, config.postFlushTTL);
    }

    method ProcessDirtyGroups(batch: int, listed: bool, ok: int64 -> Commands) returns (ids: seq<int64>)
      modifies this
      ensures if listed then Oldest(old(dirty), ids, batch) else ids == []
      ensures View() == FlushAll(old(View()), ids, ok)
    {
      if !listed { return []; }
      ids := PopDirtyGroups(batch);
      for k := 0 to |ids|
        invariant View() == FlushAll(old(View()), ids[..k], ok)
      {
        assert ids[..k + 1][..k] == ids[..k];
        FlushRoom(ids[k], ok(ids[k]));
      }
      assert ids[..|ids|] == ids;
    }

    method CleanRoom(room: int64, ok: Commands)
      modifies this
      ensures var attempt := CleanAttempt(G.Members(old(View()), room), ok);
              View() == G.CleanStale(old(View()), room, attempt.outcome, attempt.access)
      ensures var ids := if room in members then members[room] else {};
              var committed := ok(0) && ok(3) && ok(4) && ok(5) && (ids == {} || ok(6)) && ok(7);
              && members == old(members)
              && db == (if committed then old(db)[room := ids] else old(db))
              && dirty == (if ok(8) && (committed || !ok(0)) then old(dirty) - {room} else old(dirty))
    {
      var ids := GetRoomMemberIDs(room, ok);
      if ids.Some? {
        var committed := WriteBack(room, ids.value, ok);
        if !committed { return; }
      }
      if ok(8) {
        dirty := dirty - {room};
      }
    }

    /** The group half of CleanStaleDirty: every room marked before the cutoff. */
    method CleanStaleDirty(retention: int, listed: bool, ok: int64 -> Commands) returns (ids: seq<int64>)
      modifies this
      ensures forall room :: room in ids <==> listed && room in old(dirty) && old(dirty)[room] <= old(now) - retention
      ensures forall i, j | 0 <= i < j < |ids| :: ids[i] != ids[j]
      ensures View() == CleanAll(old(View()), ids, ok)
    {
      ids := [];
      if !listed { return; }
      var cutoff := now - retention;
      var left := set room | room in dirty && dirty[room] <= cutoff;
      while left != {}
        invariant View() == CleanAll(old(View()), ids, ok)
        invariant (forall i, j | 0 <= i < j < |ids| :: ids[i] != ids[j]) && forall room | room in left :: room !in ids
        invariant forall room :: room in ids || room in left <==> room in old(dirty) && old(dirty)[room] <= old(now) - retention
        decreases |left|
      {
        var room :| room in left;
        assert (ids + [room])[..|ids|] == ids;
        CleanRoom(room, ok(room));
        ids, left := ids + [room], left - {room};
      }
    }
  }

  lemma {:induction false} AllUsersWork(ok: Commands, k: nat, n: nat)
    requires k <= n && UsersWork(ok, n)
    ensures UsersWork(ok, k)
    decreases n
  {
    if k < n { AllUsersWork(ok, k, n - 1); }
  }

  lemma {:induction false} SomeMinimum(score: map<int64, int>, left: set<int64>)
    requires left != {} && left <= score.Keys
    ensures exists room :: room in left && forall other | other in left :: score[room] <= score[other]
    decreases |left|
  {
    var room :| room in left;
    if left != {room} {
      SomeMinimum(score, left - {room});
      var least :| least in left - {room} && forall other | other in left - {room} :: score[least] <= score[other];
      assert left == (left - {room}) + {room};
      if score[room] < score[least] {
        assert forall other | other in left :: score[room] <= score[other];
      } else {
        assert forall other | other in left :: score[least] <= score[other];
      }
    }
  }

  // ---------- Progress ----------

  /** No write-back fails; the commands that renew TTLs may. */
  ghost predicate Succeed(ok: int64 -> Commands) {
    forall room: int64, n: nat | n != 1 && n != 2 :: ok(room)(n)
  }

  /** A pass in which no write-back fails cleans exactly the rooms it took and makes their
      rows current. */
  lemma {:induction false} PassCleans(c: G.Cache, ids: seq<int64>, ok: int64 -> Commands)
    requires Succeed(ok)
    ensures var c' := FlushAll(c, ids, ok);
            && c'.members == c.members && c'.config == c.config && c'.now == c.now
            && c'.dirty == c.dirty - Elements(ids)
            && (forall room | room in ids :: G.Rows(c', room) == G.Members(c, room))
            && (forall room | room !in ids :: G.Rows(c', room) == G.Rows(c, room))
  {
    if ids != [] {
      PassCleans(c, ids[..|ids| - 1], ok);
      FlushShape(FlushAll(c, ids[..|ids| - 1], ok), ids[|ids| - 1], AccessOf(ok(ids[|ids| - 1])));
    }
  }

  /** For room `room`: its mark is cleared exactly if `clears`, and its rows become its members
      exactly if `writes`. */
  ghost predicate Settled(c: G.Cache, c': G.Cache, room: int64, writes: bool, clears: bool) {
    && c'.members == c.members
    && (room in c'.dirty <==> room in c.dirty && !clears) && (room in c'.dirty ==> c'.dirty[room] == c.dirty[room])
    && G.Rows(c', room) == if writes then G.Members(c, room) else G.Rows(c, room)
  }

  lemma FlushSettles(c: G.Cache, room: int64, ok: Commands)
    ensures var attempt := FlushAttempt(G.Members(c, room), ok);
            var writes := ok(0) && ok(3) && ok(4) && ok(5) && (G.Members(c, room) == {} || ok(6)) && ok(7);
            Settled(c, G.Flush(c, room, attempt.outcome, attempt.access), room, writes, writes && ok(8))
  {
    if !ok(0) || !Commits(G.Members(c, room), ok) {
      G.FailedWriteBackChangesNothing(c, room, FlushAttempt(G.Members(c, room), ok).outcome, AccessOf(ok));
    }
  }

  lemma CleanSettles(c: G.Cache, room: int64, ok: Commands)
    ensures var attempt := CleanAttempt(G.Members(c, room), ok);
            var writes := ok(0) && ok(3) && ok(4) && ok(5) && (G.Members(c, room) == {} || ok(6)) && ok(7);
            Settled(c, G.CleanStale(c, room, attempt.outcome, attempt.access), room, writes, ok(8) && (writes || !ok(0)))
  {
  }

  lemma SettlesNoOther(c: G.Cache, room: int64, ok: Commands, other: int64)
    requires other != room
    ensures var attempt := FlushAttempt(G.Members(c, room), ok);
            Settled(c, G.Flush(c, room, attempt.outcome, attempt.access), other, false, false)
    ensures var attempt := CleanAttempt(G.Members(c, room), ok);
            Settled(c, G.CleanStale(c, room, attempt.outcome, attempt.access), other, false, false)
  {
    FlushSettles(c, room, ok);
    CleanSettles(c, room, ok);
    hide FlushAttempt, G.Touch;
    var f, k := FlushAttempt(G.Members(c, room), ok), CleanAttempt(G.Members(c, room), ok);
    G.FlushOthers(c, room, f.outcome, f.access, other);
    G.FlushOthers(c, room, k.outcome, k.access, other);
  }

  /** What a pass does with any failures: each room it takes keeps its mark unless its own
      write-back succeeds, and its rows unless its own transaction commits; so a room that
      failed waits for the next pass as it is, and no failure touches another room. */
  lemma {:induction false} PassIsPerRoom(c: G.Cache, ids: seq<int64>, ok: int64 -> Commands, room: int64)
    requires forall i, j | 0 <= i < j < |ids| :: ids[i] != ids[j]
    ensures var members, o := G.Members(c, room), ok(room);
            var writes := room in ids && o(0) && o(3) && o(4) && o(5) && (members == {} || o(6)) && o(7);
            Settled(c, FlushAll(c, ids, ok), room, writes, writes && o(8))
  {
    hide G.Flush, FlushAttempt;
    if ids != [] {
      var before, last := FlushAll(c, ids[..|ids| - 1], ok), ids[|ids| - 1];
      PassIsPerRoom(c, ids[..|ids| - 1], ok, room);
      assert ids == ids[..|ids| - 1] + [last];
      if room == last {
        FlushSettles(before, room, ok(room));
      } else {
        SettlesNoOther(before, last, ok(last), room);
      }
    }
  }

  /** The same for the cleaning of stale marks, where a mark is cleared also after a read that
      failed. */
  lemma {:induction false} CleaningIsPerRoom(c: G.Cache, ids: seq<int64>, ok: int64 -> Commands, room: int64)
    requires forall i, j | 0 <= i < j < |ids| :: ids[i] != ids[j]
    ensures var members, o := G.Members(c, room), ok(room);
            var writes := room in ids && o(0) && o(3) && o(4) && o(5) && (members == {} || o(6)) && o(7);
            Settled(c, CleanAll(c, ids, ok), room, writes, room in ids && o(8) && (writes || !o(0)))
  {
    hide G.CleanStale, CleanAttempt;
    if ids != [] {
      var before, last := CleanAll(c, ids[..|ids| - 1], ok), ids[|ids| - 1];
      CleaningIsPerRoom(c, ids[..|ids| - 1], ok, room);
      assert ids == ids[..|ids| - 1] + [last];
      if room == last {
        CleanSettles(before, room, ok(room));
      } else {
        SettlesNoOther(before, last, ok(last), room);
      }
    }
  }

  lemma FlushShape(c: G.Cache, room: int64, access: G.Access)
    ensures var c' := G.Flush(c, room, G.Succeeds, access);
            && c'.members == c.members && c'.config == c.config && c'.now == c.now
            && c'.dirty == c.dirty - {room} && c'.db == c.db[room := G.Members(c, room)]
  {
  }

  lemma {:induction false} DistinctSize(ids: seq<int64>)
    requires forall i, j | 0 <= i < j < |ids| :: ids[i] != ids[j]
    ensures |Elements(ids)| == |ids|
  {
    if ids != [] {
      var before, last := ids[..|ids| - 1], ids[|ids| - 1];
      DistinctSize(before);
      ElementsAre(before);
    }
  }

  lemma SubtractSize(dirty: map<int64, int>, taken: set<int64>)
    requires taken <= dirty.Keys
    ensures |dirty - taken| == |dirty| - |taken|
  {
    assert (dirty - taken).Keys == dirty.Keys - taken;
  }

  lemma PassShrinks(c: G.Cache, ids: seq<int64>, batch: int, ok: int64 -> Commands)
    requires Oldest(c.dirty, ids, batch) && Succeed(ok)
    ensures |FlushAll(c, ids, ok).dirty| == |c.dirty| - RangeSize(batch, |c.dirty|)
  {
    hide FlushAll, RangeSize;
    PassCleans(c, ids, ok);
    DistinctSize(ids);
    ElementsAre(ids);
    SubtractSize(c.dirty, Elements(ids));
  }

  ghost predicate CleanPass(c: G.Cache, c': G.Cache, batch: int) {
    exists ids, ok: int64 -> Commands ::
      Oldest(c.dirty, ids, batch) && Succeed(ok) && c' == FlushAll(c, ids, ok)
  }

  /** What `passes` passes of `batch` rooms leave of `size` dirty ones. */
  function Remaining(size: nat, batch: nat, passes: nat): nat {
    if passes * batch <= size then size - passes * batch else 0
  }

  /** Flusher progress: without new writes and failing write-backs, every pass of a positive
      batch size takes min(batch, remaining) rooms off the list, so after enough passes
      nothing is dirty and every present key equals its rows. */
  lemma {:induction false} PassesFinish(passes: seq<G.Cache>, batch: nat)
    requires batch > 0 && passes != [] && G.Coherent(passes[0])
    requires forall i | 0 < i < |passes| :: CleanPass(passes[i - 1], passes[i], batch)
    ensures var last := passes[|passes| - 1];
            && |last.dirty| == Remaining(|passes[0].dirty|, batch, |passes| - 1)
            && G.Coherent(last)
            && (last.dirty == map[] ==> forall room | room in last.members :: last.members[room] == G.Rows(last, room))
  {
    hide G.Coherent, CleanPass;
    var last := passes[|passes| - 1];
    if |passes| > 1 {
      PassesFinish(passes[..|passes| - 1], batch);
      var c := passes[|passes| - 2];
      assert CleanPass(c, last, batch);
      CleanPassSpec(c, last, batch);
      OneMorePass(|passes[0].dirty|, batch, |passes| - 1);
    }
    CleanMeansCurrent(last);
  }

  lemma OneMorePass(size: nat, batch: nat, passes: nat)
    requires batch > 0 && passes > 0
    ensures var left := Remaining(size, batch, passes - 1);
            Remaining(size, batch, passes) == left - RangeSize(batch, left)
  {
    assert passes * batch == (passes - 1) * batch + batch;
  }

  lemma CleanMeansCurrent(c: G.Cache)
    requires G.Coherent(c)
    ensures c.dirty == map[] ==> forall room | room in c.members :: c.members[room] == G.Rows(c, room)
  {
    assert forall room | room in c.members :: G.CoherentAt(c, room);
  }

  lemma CleanPassSpec(c: G.Cache, c': G.Cache, batch: int)
    requires G.Coherent(c) && CleanPass(c, c', batch)
    ensures G.Coherent(c') && |c'.dirty| == |c.dirty| - RangeSize(batch, |c.dirty|)
  {
    hide FlushAll, G.Coherent, RangeSize;
    var ids, ok: int64 -> Commands :|
      Oldest(c.dirty, ids, batch) && Succeed(ok) && c' == FlushAll(c, ids, ok);
    PassShrinks(c, ids, batch, ok);
    PassIsCoherent(c, ids, ok);
  }

  /** A pass is a sequence of cache steps, so it keeps coherence. */
  lemma {:induction false} PassIsCoherent(c: G.Cache, ids: seq<int64>, ok: int64 -> Commands)
    requires G.Coherent(c) && (forall i | 0 <= i < |ids| :: ids[i] in c.dirty)
    requires forall i, j | 0 <= i < j < |ids| :: ids[i] != ids[j]
    requires Succeed(ok)
    ensures G.Coherent(FlushAll(c, ids, ok))
  {
    hide G.Coherent, Elements, G.Flush;
    if ids != [] {
      var before, last := ids[..|ids| - 1], ids[|ids| - 1];
      PassIsCoherent(c, before, ok);
      PassCleans(c, before, ok);
      ElementsAre(before);
      assert last in FlushAll(c, before, ok).dirty;
      G.StepCoherentExactly(FlushAll(c, before, ok), G.DoFlush(last, G.Succeeds, AccessOf(ok(last))));
    }
  }
}
