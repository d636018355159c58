/** The sender's local cache of user routes in front of the registry
    (internal/send/route/service.go, internal/send/route/cache.go). */
module RouteCache {
  import opened GoInt
  import opened Wrappers
  import L = Lease

  const LOCAL_ROUTE_CACHE_TTL := 60

  datatype Entry = Entry(info: L.RouteInfo, until: int)

  /** A Set waits in the cache's buffer before it is applied, if it ever is. */
  datatype Pending = Pending(user: int64, entry: Entry)

  /** The cache and the registry client may not have been initialised. */
  datatype Local = Local(cache: Option<map<int64, Entry>>, buffer: seq<Pending>, client: bool)

  /** How the registry takes a query: not at all, with an empty answer because its own MGET
      failed without an error, or with the routes. */
  datatype Reply = Fails | Blank | Answers

  datatype Result = Found(info: L.RouteInfo) | Offline | NotReady | QueryFailed

  // ---------- Lookups ----------

  /** An entry is served up to and including its last second. */
  function CacheGet(local: Local, user: int64, now: int): Option<L.RouteInfo> {
    if local.cache.Some? && user in local.cache.value && now <= local.cache.value[user].until
    then Some(local.cache.value[user].info)
    else None
  }

  function Single(local: Local, r: L.Registry, user: int64, reply: Reply): Result {
    match CacheGet(local, user, r.now)
    case Some(info) => Found(info)
    case None =>
      if !local.client then NotReady
      else if reply.Fails? then QueryFailed
      else if reply.Blank? then Offline
      else match L.Seen(r, user)
        case Some(info) => Found(info)
        case None => Offline
  }

  /** The users of a list that the cache does not answer for, repetitions included. */
  function Missing(local: Local, users: seq<int64>, now: int): seq<int64> {
    if users == [] then []
    else
      var before, last := Missing(local, users[..|users| - 1], now), users[|users| - 1];
      if CacheGet(local, last, now).None? then before + [last] else before
  }

  /** `added` lists a Set for each of the routes found, in some order. */
  ghost predicate Lists(added: seq<Pending>, found: map<int64, L.RouteInfo>, now: int) {
    && (forall p :: p in added <==>
          p.user in found && p.entry == Entry(found[p.user], now + LOCAL_ROUTE_CACHE_TTL))
    && (forall i, j | 0 <= i < j < |added| :: added[i].user != added[j].user)
  }

  /** What a lookup that fetched `found` leaves in the cache. */
  ghost predicate Buffers(local: Local, local': Local, found: map<int64, L.RouteInfo>, now: int) {
    && local' == local.(buffer := local'.buffer)
    && local.buffer <= local'.buffer
    && (if local.cache.Some? then Lists(local'.buffer[|local.buffer|..], found, now) else local' == local)
  }

  /** The routes that a lookup of `users` fetches from the registry. */
  function Fetched(local: Local, r: L.Registry, users: seq<int64>, reply: Reply): map<int64, L.RouteInfo> {
    if local.client && reply.Answers? then L.Routes(r, Missing(local, users, r.now)) else map[]
  }

  /** The cache has an entry for the user that is not over. */
  predicate Cached(cache: Option<map<int64, Entry>>, user: int64, now: int) {
    cache.Some? && user in cache.value && now <= cache.value[user].until
  }

  /** The registry has a readable route for the user that is not over. */
  predicate Routed(r: L.Registry, user: int64) {
    user in r.routes && r.now < r.routes[user].deadline && r.routes[user].value.Json?
  }

  // ---------- The service ----------

  class Service {
    var cache: Option<map<int64, Entry>>
    var buffer: seq<Pending>
    var client: bool

    ghost function View(): Local
      reads this
    {
      Local(cache, buffer, client)
    }

    constructor ()
      ensures View() == Local(None, [], false)
    {
      cache, buffer, client := None, [], false;
    }

    method InitRouteService(connected: bool)
      modifies this
      ensures View() == Local(Some(map[]), [], connected)
    {
      cache, buffer, client := Some(map[]), [], connected;
    }

    method Get(user: int64, now: int) returns (info: Option<L.RouteInfo>)
      ensures info == CacheGet(View(), user, now)
      ensures info == if Cached(cache, user, now) then Some(cache.value[user].info) else None
    {
      if cache.None? || user !in cache.value { return None; }
      var entry := cache.value[user];
      return if now <= entry.until then Some(entry.info) else None;
    }

    method Set(user: int64, info: L.RouteInfo, now: int)
      modifies this`buffer
      ensures buffer == old(buffer) + [Pending(user, Entry(info, now + LOCAL_ROUTE_CACHE_TTL))]
    {
      buffer := buffer + [Pending(user, Entry(info, now + LOCAL_ROUTE_CACHE_TTL))];
    }

    method GetUserGateway(user: int64, r: L.Registry, reply: Reply) returns (result: Result)
      modifies this`buffer
      ensures result == Single(old(View()), r, user, reply)
      ensures Buffers(old(View()), View(), Fetched(old(View()), r, [user], reply), r.now)
      ensures result == if Cached(cache, user, r.now) then Found(cache.value[user].info)
                        else if !client then NotReady
                        else if reply.Fails? then QueryFailed
                        else if reply.Answers? && Routed(r, user) then
                          Found(L.RouteInfo(r.routes[user].value.value.gateway, r.routes[user].value.value.address))
                        else Offline
      ensures buffer == old(buffer) + if result.Found? && cache.Some? && !Cached(cache, user, r.now)
                                       then [Pending(user, Entry(result.info, r.now + 60))] else []
    {
      var hit := Get(user, r.now);
      OnlyOne(View(), r, user, reply);
      if hit.Some? { return Found(hit.value); }
      if !client { return NotReady; }
      if reply.Fails? { return QueryFailed; }
      var routes := if reply.Answers? then L.Routes(r, [user]) else map[];
      if user !in routes { return Offline; }
      if cache.Some? {
        Set(user, routes[user], r.now);
      }
      return Found(routes[user]);
    }

    method BatchGetUserGateways(users: seq<int64>, r: L.Registry, reply: Reply)
      returns (result: map<int64, L.RouteInfo>, error: Option<Result>)
      modifies this`buffer
      ensures error == if !client then Some(NotReady)
                       else if reply.Fails? && Missing(old(View()), users, r.now) != [] then Some(QueryFailed) else None
      ensures client ==> BatchAgrees(old(View()), r, users, reply, result)
      ensures !client ==> result == map[]
      ensures Buffers(old(View()), View(), Fetched(old(View()), r, users, reply), r.now)
      ensures client ==> forall user ::
                && (user in result <==> user in users && (Cached(cache, user, r.now) || (reply.Answers? && Routed(r, user))))
                && (user in result ==>
                      result[user] == if Cached(cache, user, r.now) then cache.value[user].info
                                      else L.RouteInfo(r.routes[user].value.value.gateway, r.routes[user].value.value.address))
    {
      if !client { return map[], Some(NotReady); }
      var missing;
      result, missing := FromCache(users, r.now);
      BatchRefinesSingle(View(), r, users, reply);
      NothingFetched(View(), r, result);
      if missing == [] { return result, None; }
      if reply.Fails? { return result, Some(QueryFailed); }
      var routes := if reply.Answers? then L.Routes(r, missing) else map[];
      result := result + routes;
      if cache.Some? {
        SetAll(routes, r.now);
      }
      return result, None;
    }

    method FromCache(users: seq<int64>, now: int) returns (hits: map<int64, L.RouteInfo>, missing: seq<int64>)
      ensures hits == Hits(View(), users, now)
      ensures missing == Missing(View(), users, now)
    {
      hits, missing := map[], [];
      for k := 0 to |users|
        invariant hits == Hits(View(), users[..k], now) && missing == Missing(View(), users[..k], now)
      {
        NextLookup(View(), users, k, now);
        var entry := Get(users[k], now);
        if entry.Some? {
          hits := hits[users[k] := entry.value];
        } else {
          missing := missing + [users[k]];
        }
      }
      assert users[..|users|] == users;
    }

    /** The map is walked in no particular order. */
    method SetAll(routes: map<int64, L.RouteInfo>, now: int)
      modifies this`buffer
      ensures old(buffer) <= buffer && Lists(buffer[|old(buffer)|..], routes, now)
    {
      var left := routes.Keys;
      ghost var added: seq<Pending> := [];
      while left != {}
        invariant left <= routes.Keys && buffer == old(buffer) + added
        invariant Lists(added, routes - left, now)
        decreases |left|
      {
        var user :| user in left;
        NextSet(added, routes, left, user, now);
        Set(user, routes[user], now);
        added := added + [Pending(user, Entry(routes[user], now + LOCAL_ROUTE_CACHE_TTL))];
        left := left - {user};
      }
      assert routes - {} == routes;
      assert buffer[|old(buffer)|..] == added;
    }

    method InvalidateCache(user: int64)
      modifies this`cache
      ensures View() == Invalidated(old(View()), user)
      ensures cache == if old(cache).Some? then Some(old(cache).value - {user}) else None
    {
      if cache.Some? {
        cache := Some(cache.value - {user});
      }
    }

    method ClearCache()
      modifies this`cache
      ensures View() == Cleared(old(View()))
    {
      if cache.Some? {
        cache := Some(map[]);
      }
    }
  }

  function Invalidated(local: Local, user: int64): Local {
    if local.cache.Some? then local.(cache := Some(local.cache.value - {user})) else local
  }

  function Cleared(local: Local): Local {
    if local.cache.Some? then local.(cache := Some(map[])) else local
  }

  function Hits(local: Local, users: seq<int64>, now: int): map<int64, L.RouteInfo> {
    map user | user in users && CacheGet(local, user, now).Some? :: CacheGet(local, user, now).value
  }

  lemma NextLookup(local: Local, users: seq<int64>, k: nat, now: int)
    requires k < |users|
    ensures var hit := CacheGet(local, users[k], now);
            && Hits(local, users[..k + 1], now) ==
               (if hit.Some? then Hits(local, users[..k], now)[users[k] := hit.value] else Hits(local, users[..k], now))
            && Missing(local, users[..k + 1], now) ==
               (if hit.Some? then Missing(local, users[..k], now) else Missing(local, users[..k], now) + [users[k]])
  {
    hide CacheGet;
    assert users[..k + 1] == users[..k] + [users[k]];
    assert users[..k + 1][..k] == users[..k];
  }

  lemma NextSet(added: seq<Pending>, routes: map<int64, L.RouteInfo>, left: set<int64>, user: int64, now: int)
    requires left <= routes.Keys && user in left && Lists(added, routes - left, now)
    ensures Lists(added + [Pending(user, Entry(routes[user], now + LOCAL_ROUTE_CACHE_TTL))], routes - (left - {user}), now)
  {
    var more := added + [Pending(user, Entry(routes[user], now + LOCAL_ROUTE_CACHE_TTL))];
    forall i, j | 0 <= i < j < |more| ensures more[i].user != more[j].user {
      assert more[i] in added;
    }
  }

  lemma OnlyOne(local: Local, r: L.Registry, user: int64, reply: Reply)
    ensures Missing(local, [user], r.now) == if CacheGet(local, user, r.now).None? then [user] else []
    ensures Buffers(local, local, map[], r.now)
  {
    assert [user][..0] == [];
    assert local.buffer[|local.buffer|..] == [];
  }

  lemma NothingFetched(local: Local, r: L.Registry, result: map<int64, L.RouteInfo>)
    ensures L.Routes(r, []) == map[] && result + map[] == result
    ensures Buffers(local, local, map[], r.now)
  {
    assert local.buffer[|local.buffer|..] == [];
  }

  // ---------- The batch lookup refines the single one ----------

  /** For every user asked for, repeated or not, the batch finds what a single lookup in the
      same state finds, and nothing else. */
  ghost predicate BatchAgrees(local: Local, r: L.Registry, users: seq<int64>, reply: Reply, result: map<int64, L.RouteInfo>) {
    forall user ::
      && (user in result <==> user in users && Single(local, r, user, reply).Found?)
      && (user in result ==> Single(local, r, user, reply) == Found(result[user]))
  }

  lemma {:induction false} MissingAre(local: Local, users: seq<int64>, now: int)
    ensures forall user :: user in Missing(local, users, now) <==> user in users && CacheGet(local, user, now).None?
  {
    hide CacheGet;
    if users != [] {
      MissingAre(local, users[..|users| - 1], now);
      assert users == users[..|users| - 1] + [users[|users| - 1]];
    }
  }

  lemma BatchRefinesSingle(local: Local, r: L.Registry, users: seq<int64>, reply: Reply)
    requires local.client
    ensures BatchAgrees(local, r, users, reply, Hits(local, users, r.now) + Fetched(local, r, users, reply))
  {
    hide CacheGet, L.Seen;
    MissingAre(local, users, r.now);
  }

  /** A lookup buffers exactly the routes that it has fetched: those of the users that the cache
      has no current entry for and the registry knows, each to be served for 60 seconds. */
  lemma BuffersExactly(local: Local, local': Local, r: L.Registry, users: seq<int64>, reply: Reply, p: Pending)
    requires local.client && local.cache.Some? && Buffers(local, local', Fetched(local, r, users, reply), r.now)
    ensures p in local'.buffer[|local.buffer|..] <==>
            && p.user in users && !Cached(local.cache, p.user, r.now) && reply.Answers? && Routed(r, p.user)
            && p.entry == Entry(L.RouteInfo(r.routes[p.user].value.value.gateway, r.routes[p.user].value.value.address), r.now + 60)
  {
    MissingAre(local, users, r.now);
    NotCached(local, p.user, r.now);
    hide CacheGet, Missing, Cached;
  }

  /** The two lookups disagree about a missing client: the batch checks for it first, the
      single one only when the cache does not answer. */
  lemma OnlySingleServesWithoutClient(local: Local, r: L.Registry, user: int64, reply: Reply)
    requires !local.client
    ensures Single(local, r, user, reply) == NotReady <==> CacheGet(local, user, r.now).None?
  {
  }

  /** What the batch finds, with or without a client. */
  function BatchFound(local: Local, r: L.Registry, users: seq<int64>, reply: Reply): map<int64, L.RouteInfo> {
    if local.client then Hits(local, users, r.now) + Fetched(local, r, users, reply) else map[]
  }

  /** So the batch finds what single lookups find if and only if there is a client or the cache
      answers for none of the users. */
  lemma BatchAgreesExactly(local: Local, r: L.Registry, users: seq<int64>, reply: Reply)
    ensures BatchAgrees(local, r, users, reply, BatchFound(local, r, users, reply)) <==>
            local.client || forall user | user in users :: CacheGet(local, user, r.now).None?
  {
    hide CacheGet, L.Seen;
    if local.client {
      BatchRefinesSingle(local, r, users, reply);
    } else {
      forall user ensures Single(local, r, user, reply).Found? <==> CacheGet(local, user, r.now).Some? {
        OnlySingleServesWithoutClient(local, r, user, reply);
      }
    }
  }

  /** Without a cached entry, and with the registry answering, a lookup is the registry's. */
  lemma LookupAfterInvalidate(local: Local, r: L.Registry, user: int64)
    requires local.client
    ensures Single(Invalidated(local, user), r, user, Answers) ==
            match L.Seen(r, user) { case Some(info) => Found(info) case None => Offline }
  {
    hide L.Seen;
  }

  // ---------- Runs ----------

  datatype System = System(local: Local, registry: L.Registry)

  /** Registry changes and clock ticks, lookups, and what the cache does on its own: apply or
      drop a buffered Set, evict an entry. */
  datatype Action =
    | Registry(action: L.Action)
    | Lookup(user: int64, reply: Reply)
    | Batch(users: seq<int64>, reply: Reply)
    | Apply(i: nat)
    | Drop(i: nat)
    | Evict(user: int64)
    | Invalidate(user: int64)
    | Clear

  function Without(buffer: seq<Pending>, i: nat): seq<Pending> {
    if i < |buffer| then buffer[..i] + buffer[i + 1..] else buffer
  }

  ghost predicate NextLocal(l: Local, l': Local, r: L.Registry, a: Action)
    requires !a.Registry?
  {
    match a
    case Lookup(user, reply) => Buffers(l, l', Fetched(l, r, [user], reply), r.now)
    case Batch(users, reply) => Buffers(l, l', Fetched(l, r, users, reply), r.now)
    case Apply(i) =>
      && i < |l.buffer| && l.cache.Some?
      && l' == l.(cache := Some(l.cache.value[l.buffer[i].user := l.buffer[i].entry]), buffer := Without(l.buffer, i))
    case Drop(i) => l' == l.(buffer := Without(l.buffer, i))
    case Evict(user) => l' == Invalidated(l, user)
    case Invalidate(user) => l' == Invalidated(l, user)
    case Clear => l' == Cleared(l)
  }

  ghost predicate Next(s: System, s': System, a: Action) {
    if a.Registry? then s' == s.(registry := L.Step(s.registry, a.action))
    else s'.registry == s.registry && NextLocal(s.local, s'.local, s.registry, a)
  }

  ghost predicate NextAt(states: seq<System>, actions: seq<Action>, k: nat)
    requires k < |actions| && |states| == |actions| + 1
  {
    Next(states[k], states[k + 1], actions[k])
  }

  ghost predicate Trace(states: seq<System>, actions: seq<Action>) {
    && |states| == |actions| + 1
    && (states[0].local.cache.Some? ==> states[0].local.cache.value == map[]) && states[0].local.buffer == []
    && forall k | 0 <= k < |actions| :: NextAt(states, actions, k)
  }

  /** The registry gave this answer at state `i`, and the entry carries the TTL from there. */
  predicate SourcedAt(states: seq<System>, user: int64, entry: Entry, i: nat)
    requires i < |states|
  {
    && L.Seen(states[i].registry, user) == Some(entry.info)
    && entry.until == states[i].registry.now + LOCAL_ROUTE_CACHE_TTL
  }

  ghost predicate Sourced(states: seq<System>, user: int64, entry: Entry) {
    exists i :: 0 <= i < |states| && SourcedAt(states, user, entry, i)
  }

  ghost predicate AllSourced(states: seq<System>, local: Local) {
    && (local.cache.Some? ==> forall user | user in local.cache.value :: Sourced(states, user, local.cache.value[user]))
    && (forall i | 0 <= i < |local.buffer| :: Sourced(states, local.buffer[i].user, local.buffer[i].entry))
  }

  lemma SourcedMore(states: seq<System>, s: System, user: int64, entry: Entry)
    requires Sourced(states, user, entry)
    ensures Sourced(states + [s], user, entry)
  {
    var i :| 0 <= i < |states| && SourcedAt(states, user, entry, i);
    assert SourcedAt(states + [s], user, entry, i);
  }

  lemma AllSourcedMore(states: seq<System>, s: System, local: Local)
    requires AllSourced(states, local)
    ensures AllSourced(states + [s], local)
  {
    hide Sourced;
    if local.cache.Some? {
      forall user | user in local.cache.value ensures Sourced(states + [s], user, local.cache.value[user]) {
        SourcedMore(states, s, user, local.cache.value[user]);
      }
    }
    forall i | 0 <= i < |local.buffer| ensures Sourced(states + [s], local.buffer[i].user, local.buffer[i].entry) {
      SourcedMore(states, s, local.buffer[i].user, local.buffer[i].entry);
    }
  }

  /** What a lookup buffers comes from the registry's present answer. */
  lemma BufferedIsSourced(states: seq<System>, local: Local, local': Local, users: seq<int64>, reply: Reply)
    requires states != [] && AllSourced(states, local)
    requires var r := states[|states| - 1].registry; Buffers(local, local', Fetched(local, r, users, reply), r.now)
    ensures AllSourced(states, local')
  {
    hide Sourced, L.Seen;
    var n, r := |states| - 1, states[|states| - 1].registry;
    var found := Fetched(local, r, users, reply);
    forall i | 0 <= i < |local'.buffer| ensures Sourced(states, local'.buffer[i].user, local'.buffer[i].entry) {
      if i < |local.buffer| {
        assert local'.buffer[i] == local.buffer[i];
      } else {
        var p := local'.buffer[i];
        assert local.cache.Some?;
        assert p == local'.buffer[|local.buffer|..][i - |local.buffer|];
        FetchedIsSourced(states, p, local, users, reply);
      }
    }
  }

  lemma FetchedIsSourced(states: seq<System>, p: Pending, local: Local, users: seq<int64>, reply: Reply)
    requires states != []
    requires var r := states[|states| - 1].registry;
             p.user in Fetched(local, r, users, reply)
             && p.entry == Entry(Fetched(local, r, users, reply)[p.user], r.now + LOCAL_ROUTE_CACHE_TTL)
    ensures Sourced(states, p.user, p.entry)
  {
    hide L.Seen, Missing;
    assert SourcedAt(states, p.user, p.entry, |states| - 1);
  }

  lemma NextKeepsSourced(states: seq<System>, s': System, a: Action)
    requires states != [] && AllSourced(states, states[|states| - 1].local) && Next(states[|states| - 1], s', a)
    ensures AllSourced(states + [s'], s'.local)
  {
    hide Sourced, Buffers, Fetched, L.Step;
    var s := states[|states| - 1];
    match a {
      case Registry(_) =>
      case Lookup(user, reply) => BufferedIsSourced(states, s.local, s'.local, [user], reply);
      case Batch(users, reply) => BufferedIsSourced(states, s.local, s'.local, users, reply);
      case Apply(_) =>
      case Drop(_) =>
      case Evict(_) =>
      case Invalidate(_) =>
      case Clear =>
    }
    AllSourcedMore(states, s', s'.local);
  }

  lemma {:induction false} TraceIsSourced(states: seq<System>, actions: seq<Action>)
    requires Trace(states, actions)
    ensures AllSourced(states, states[|states| - 1].local)
  {
    hide Next, Sourced;
    if actions != [] {
      var before := states[..|states| - 1];
      TraceBefore(states, actions);
      TraceIsSourced(before, actions[..|actions| - 1]);
      assert states == before + [states[|states| - 1]];
      assert NextAt(states, actions, |actions| - 1);
      NextKeepsSourced(before, states[|states| - 1], actions[|actions| - 1]);
    }
  }

  lemma TraceBefore(states: seq<System>, actions: seq<Action>)
    requires Trace(states, actions) && actions != []
    ensures Trace(states[..|states| - 1], actions[..|actions| - 1])
  {
    hide Next;
    var states', actions' := states[..|states| - 1], actions[..|actions| - 1];
    forall k | 0 <= k < |actions'| ensures NextAt(states', actions', k) {
      assert NextAt(states, actions, k);
    }
  }

  lemma {:induction false} ClockRuns(states: seq<System>, actions: seq<Action>, i: nat)
    requires Trace(states, actions) && i < |states|
    ensures states[i].registry.now <= states[|states| - 1].registry.now
  {
    hide NextLocal, L.Step;
    if i < |actions| {
      TraceBefore(states, actions);
      ClockRuns(states[..|states| - 1], actions[..|actions| - 1], i);
      var a, s := actions[|actions| - 1], states[|actions| - 1];
      assert NextAt(states, actions, |actions| - 1);
      if a.Registry? {
        L.ConfigAndClock(s.registry, a.action);
      }
    }
  }

  /** State `i` is at most 60 seconds older than the last one. */
  predicate Recent(states: seq<System>, i: nat)
    requires i < |states|
  {
    states[|states| - 1].registry.now - 60 <= states[i].registry.now <= states[|states| - 1].registry.now
  }

  /** Bounded staleness: over every run of registry changes, ticks, lookups, evictions,
      dropped and delayed Sets and invalidations, a gateway found for a user now was the
      registry's answer for that user at a moment at most 60 seconds ago. */
  lemma BoundedStaleness(states: seq<System>, actions: seq<Action>, user: int64, reply: Reply, info: L.RouteInfo)
    requires Trace(states, actions)
    requires var s := states[|states| - 1]; Single(s.local, s.registry, user, reply) == Found(info)
    ensures exists i :: 0 <= i < |states| && Recent(states, i) && L.Seen(states[i].registry, user) == Some(info)
  {
    hide L.Seen, Next;
    var n, s := |states| - 1, states[|states| - 1];
    if CacheGet(s.local, user, s.registry.now).Some? {
      TraceIsSourced(states, actions);
      var entry := s.local.cache.value[user];
      assert Sourced(states, user, entry);
      var i :| 0 <= i < |states| && SourcedAt(states, user, entry, i);
      ClockRuns(states, actions, i);
      assert Recent(states, i);
    } else {
      assert Recent(states, n);
      assert L.Seen(states[n].registry, user) == Some(info);
    }
  }

  // ---------- The route found is one the user connected by ----------

  function RegistryActions(actions: seq<Action>): seq<L.Action> {
    if actions == [] then []
    else
      var before, last := RegistryActions(actions[..|actions| - 1]), actions[|actions| - 1];
      if last.Registry? then before + [last.action] else before
  }

  lemma {:induction false} RegistryRuns(states: seq<System>, actions: seq<Action>, i: nat)
    requires Trace(states, actions) && i < |states|
    ensures states[i].registry == L.Run(states[0].registry, RegistryActions(actions[..i]))
  {
    hide NextLocal, L.Step;
    if i > 0 {
      RegistryRuns(states, actions, i - 1);
      assert NextAt(states, actions, i - 1);
      assert actions[..i][..i - 1] == actions[..i - 1];
      if actions[i - 1].Registry? {
        var moves := RegistryActions(actions[..i]);
        assert moves[..|moves| - 1] == RegistryActions(actions[..i - 1]);
      }
    }
  }

  /** The user's last connect that worked was to this gateway. */
  ghost predicate LastConnectedTo(r: L.Registry, moves: seq<L.Action>, user: int64, gateway: string) {
    exists c: nat :: L.IsLastConnect(r, moves, user, c) && moves[c].gateway == gateway
  }

  lemma SeenIsLastConnected(r: L.Registry, moves: seq<L.Action>, user: int64, info: L.RouteInfo)
    requires L.Fresh(r) && L.Seen(L.Run(r, moves), user) == Some(info)
    ensures LastConnectedTo(r, moves, user, info.gateway)
  {
    hide L.Run;
    L.RouteIsLastConnect(r, moves, user);
    var c: nat :| L.Records(r, moves, user, c, L.RouteOf(L.Run(r, moves), user).value);
    assert L.IsLastConnect(r, moves, user, c);
  }

  /** Cache and registry together: a gateway found for a user is the one of the user's last
      connect that worked, as of a moment at most 60 seconds ago. */
  lemma FoundWhereConnected(states: seq<System>, actions: seq<Action>, user: int64, reply: Reply, info: L.RouteInfo)
    requires Trace(states, actions) && L.Fresh(states[0].registry)
    requires var s := states[|states| - 1]; Single(s.local, s.registry, user, reply) == Found(info)
    ensures exists i :: 0 <= i < |states| && Recent(states, i)
              && LastConnectedTo(states[0].registry, RegistryActions(actions[..i]), user, info.gateway)
  {
    hide Next, Single, L.Run, L.Seen, LastConnectedTo;
    BoundedStaleness(states, actions, user, reply, info);
    var i :| 0 <= i < |states| && Recent(states, i) && L.Seen(states[i].registry, user) == Some(info);
    RegistryRuns(states, actions, i);
    SeenIsLastConnected(states[0].registry, RegistryActions(actions[..i]), user, info);
  }

  /** Right after an invalidation there is no staleness at all: a gateway found then is the one
      of the user's last working connect. */
  lemma {:induction false} FoundAfterInvalidation(states: seq<System>, actions: seq<Action>, user: int64, info: L.RouteInfo)
    requires Trace(states, actions) && L.Fresh(states[0].registry)
    requires actions != [] && actions[|actions| - 1] == Invalidate(user)
    requires var s := states[|states| - 1]; s.local.client && Single(s.local, s.registry, user, Answers) == Found(info)
    ensures LastConnectedTo(states[0].registry, RegistryActions(actions), user, info.gateway)
  {
    hide Next, Single, L.Run, L.Seen, LastConnectedTo, RegistryActions;
    var n := |actions|;
    assert NextAt(states, actions, n - 1);
    InvalidatedBefore(states[n - 1], states[n], user);
    LookupAfterInvalidate(states[n - 1].local, states[n].registry, user);
    RegistryRuns(states, actions, n);
    assert actions[..n] == actions;
    SeenIsLastConnected(states[0].registry, RegistryActions(actions), user, info);
  }

  lemma InvalidatedBefore(s: System, s': System, user: int64)
    requires Next(s, s', Invalidate(user))
    ensures s'.local == Invalidated(s.local, user) && s'.local.client == s.local.client
  {
  }

  // ---------- Who is found ----------

  /** With a client, an answering registry and no current entry in the cache, a user is found by
      both lookups for as long as the TTL after the last connect that worked, at that gateway and
      at the host and port it had registered; and by neither when the TTL is over and the gateway
      has not reported a disconnect since. */
  lemma FoundExactly(states: seq<System>, actions: seq<Action>, user: int64, i: nat, users: seq<int64>)
    requires Trace(states, actions) && L.Fresh(states[0].registry) && user in users
    requires L.IsLastConnect(states[0].registry, RegistryActions(actions), user, i)
    requires var s := states[|states| - 1]; s.local.client && !Cached(s.local.cache, user, s.registry.now)
    ensures var r0, moves, s := states[0].registry, RegistryActions(actions), states[|states| - 1];
            var recorded, batch := L.Run(r0, moves[..i]), BatchFound(s.local, s.registry, users, Answers);
            && i < |moves| && moves[i].DoConnect?
            && var gateway := moves[i].gateway;
            && gateway in recorded.infos && recorded.infos[gateway].value.Json?
            && var info := recorded.infos[gateway].value.value;
            var found := L.RouteInfo(gateway, info.address + ":" + L.JoinedRooms.FormatInt(info.port));
            && (s.registry.now < recorded.now + r0.config.routeTTL ==>
                  Single(s.local, s.registry, user, Answers) == Found(found) && user in batch && batch[user] == found)
            && (s.registry.now >= recorded.now + r0.config.routeTTL && !L.LeftSince(moves, user, i) ==>
                  Single(s.local, s.registry, user, Answers) == Offline && user !in batch)
  {
    hide Next, L.Run, L.IsLastConnect, L.LeftSince, RegistryActions, CacheGet;
    var r0, moves, s := states[0].registry, RegistryActions(actions), states[|states| - 1];
    RegistryRuns(states, actions, |actions|);
    assert actions[..|actions|] == actions;
    L.LastConnectWorked(r0, moves, user, i);
    NotCached(s.local, user, s.registry.now);
    if s.registry.now < L.Run(r0, moves[..i]).now + r0.config.routeTTL {
      L.RouteIsThere(r0, moves, user, i);
    } else if !L.LeftSince(moves, user, i) {
      L.RouteLapses(r0, moves, user, i);
    }
    MissingAre(s.local, users, s.registry.now);
  }

  lemma NotCached(local: Local, user: int64, now: int)
    ensures CacheGet(local, user, now).Some? <==> Cached(local.cache, user, now)
  {
  }
}
