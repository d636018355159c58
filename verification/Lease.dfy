/** The registry: gateways hold leases that heartbeats renew, users hold routes that connects
    and disconnects renew, and a ranking orders gateways by load
    (internal/registry/gateway/service.go, internal/registry/user/service.go). */
module Lease {
  import opened GoInt
  import opened Wrappers
  import JoinedRooms

  datatype GatewayInfo = GatewayInfo(id: string, address: string, port: int64, capacity: int, load: real, users: int)

  datatype Route = Route(user: int64, gateway: string, address: string, connectedAt: int, connected: bool)

  /** The bytes of a key, serialized by the registry or not decodable. */
  datatype Value<T> = Json(value: T) | Undecodable

  /** A key with a TTL: gone from its deadline on. */
  datatype Key<T> = Key(value: Value<T>, deadline: int)

  datatype Config = Config(gatewayTTL: int, routeTTL: int)

  datatype Registry = Registry(
    infos: map<string, Key<GatewayInfo>>,
    ranking: map<string, real>,
    instances: set<string>,
    routes: map<int64, Key<Route>>,
    now: int,
    config: Config)

  /** Whether the i-th Redis command of a call works; one that does not has no effect. */
  type Commands = nat -> bool

  // ---------- Keys ----------

  predicate Exists<K(==), T>(keys: map<K, Key<T>>, k: K, now: int) {
    k in keys && now < keys[k].deadline
  }

  function Get<K(==), T>(keys: map<K, Key<T>>, k: K, now: int): Option<T> {
    if Exists(keys, k, now) && keys[k].value.Json? then Some(keys[k].value.value) else None
  }

  function Info(r: Registry, gateway: string): Option<GatewayInfo> {
    Get(r.infos, gateway, r.now)
  }

  function RouteOf(r: Registry, user: int64): Option<Route> {
    Get(r.routes, user, r.now)
  }

  /** SETEX refuses a TTL that is not positive. */
  function SetInfo(r: Registry, gateway: string, info: GatewayInfo): Registry {
    r.(infos := r.infos[gateway := Key(Json(info), r.now + r.config.gatewayTTL)])
  }

  function SetRoute(r: Registry, user: int64, route: Route): Registry {
    r.(routes := r.routes[user := Key(Json(route), r.now + r.config.routeTTL)])
  }

  /** GetGatewayAddress. */
  function Address(info: GatewayInfo): string {
    info.address + ":" + JoinedRooms.FormatInt(info.port)
  }

  // ---------- Operations ----------

  function Register(r: Registry, gateway: string, address: string, port: int64, capacity: int, ok: Commands): Registry {
    if !ok(0) || r.config.gatewayTTL <= 0 then r
    else
      var r1 := SetInfo(r, gateway, GatewayInfo(gateway, address, port, capacity, 0.0, 0));
      if !ok(1) then r1
      else
        var r2 := r1.(ranking := r1.ranking[gateway := 0.0]);
        if !ok(2) then r2 else r2.(instances := r2.instances + {gateway})
  }

  function Heartbeat(r: Registry, gateway: string, load: real, users: int, ok: Commands): Registry {
    if !ok(0) || Info(r, gateway).None? || !ok(1) || r.config.gatewayTTL <= 0 then r
    else
      var r1 := SetInfo(r, gateway, Info(r, gateway).value.(load := load, users := users));
      if !ok(2) then r1 else r1.(ranking := r1.ranking[gateway := load * 1000.0])
  }

  function Unregister(r: Registry, gateway: string, ok: Commands): Registry {
    if !ok(0) then r
    else
      var r1 := r.(infos := r.infos - {gateway});
      if !ok(1) then r1
      else
        var r2 := r1.(ranking := r1.ranking - {gateway});
        if !ok(2) then r2 else r2.(instances := r2.instances - {gateway})
  }

  predicate ConnectWorks(r: Registry, gateway: string, ok: Commands) {
    ok(0) && Info(r, gateway).Some? && ok(1) && r.config.routeTTL > 0
  }

  function Connect(r: Registry, user: int64, gateway: string, ok: Commands): Registry {
    if !ConnectWorks(r, gateway, ok) then r
    else SetRoute(r, user, Route(user, gateway, Address(Info(r, gateway).value), r.now, true))
  }

  function Disconnect(r: Registry, user: int64, gateway: string, ok: Commands): Registry {
    if !ok(0) || RouteOf(r, user).None? || RouteOf(r, user).value.gateway != gateway || !ok(1) || r.config.routeTTL <= 0 then r
    else SetRoute(r, user, RouteOf(r, user).value.(connected := false))
  }

  function DeleteRoute(r: Registry, user: int64, ok: Commands): Registry {
    if ok(0) then r.(routes := r.routes - {user}) else r
  }

  // ---------- Which gateway a user is offered ----------

  datatype Reason = GatewayNotFound | InvalidGatewayData | NoAvailableGateway

  datatype Offer = Offered(info: GatewayInfo) | Refused(reason: Reason)

  /** A first member of `ZRANGE ranking 0 0`; which of equal scores comes first is left open. */
  ghost predicate IsLowest(ranking: map<string, real>, gateway: string) {
    gateway in ranking && forall other | other in ranking :: ranking[gateway] <= ranking[other]
  }

  function OfferOf(r: Registry, gateway: string, readable: bool): Offer {
    if !readable || !Exists(r.infos, gateway, r.now) then Refused(GatewayNotFound)
    else match Info(r, gateway)
      case None => Refused(InvalidGatewayData)
      case Some(info) => if info.users >= info.capacity then Refused(NoAvailableGateway) else Offered(info)
  }

  /** What GetLowestLoadGateway may answer. */
  ghost predicate LowestOffer(r: Registry, ranked: bool, readable: bool, offer: Offer) {
    if !ranked || r.ranking == map[] then offer == Refused(NoAvailableGateway)
    else exists gateway :: IsLowest(r.ranking, gateway) && offer == OfferOf(r, gateway, readable)
  }

  /** The gateway of the user's route, if that still has a lease. */
  function Usable(r: Registry, user: int64, ok: Commands): Option<GatewayInfo> {
    if ok(0) && RouteOf(r, user).Some? && ok(1) && ok(2) then Info(r, RouteOf(r, user).value.gateway) else None
  }

  ghost predicate MayOffer(r: Registry, user: int64, ok: Commands, offer: Offer) {
    if Usable(r, user, ok).Some? then offer == Offered(Usable(r, user, ok).value)
    else LowestOffer(r, ok(3), ok(4), offer)
  }

  /** What a client needs of a route. */
  datatype RouteInfo = RouteInfo(gateway: string, address: string)

  function Seen(r: Registry, user: int64): Option<RouteInfo> {
    match RouteOf(r, user)
    case None => None
    case Some(route) => Some(RouteInfo(route.gateway, route.address))
  }

  /** MGET: one answer per key, by position; a key that is missing answers nothing. */
  function MGet(routes: map<int64, Key<Route>>, users: seq<int64>, now: int): (values: seq<Option<Value<Route>>>)
    ensures |values| == |users|
    ensures forall i | 0 <= i < |users| ::
              values[i] == if Exists(routes, users[i], now) then Some(routes[users[i]].value) else None
  {
    if users == [] then []
    else
      var last := users[|users| - 1];
      MGet(routes, users[..|users| - 1], now) + [if Exists(routes, last, now) then Some(routes[last].value) else None]
  }

  /** The routes of those of `users` that have one. */
  function Routes(r: Registry, users: seq<int64>): map<int64, RouteInfo> {
    map user | user in users && Seen(r, user).Some? :: Seen(r, user).value
  }

  // ---------- The services ----------

  class Service {
    var infos: map<string, Key<GatewayInfo>>
    var ranking: map<string, real>
    var instances: set<string>
    var routes: map<int64, Key<Route>>
    var now: int
    const config: Config

    ghost function View(): Registry
      reads this
    {
      Registry(infos, ranking, instances, routes, now, config)
    }

    constructor (now: int, config: Config)
      ensures View() == Registry(map[], map[], {}, map[], now, config)
    {
      infos, ranking, instances, routes := map[], map[], {}, map[];
      this.now, this.config := now, config;
    }

    method RegisterGateway(gateway: string, address: string, port: int64, capacity: int, ok: Commands) returns (done: bool)
      modifies this
      ensures View() == Register(old(View()), gateway, address, port, capacity, ok)
      ensures done <==> ok(0) && config.gatewayTTL > 0 && ok(1) && ok(2)
      ensures infos == if ok(0) && config.gatewayTTL > 0
                       then old(infos)[gateway := Key(Json(GatewayInfo(gateway, address, port, capacity, 0.0, 0)), now + config.gatewayTTL)]
                       else old(infos)
      ensures ranking == if ok(0) && config.gatewayTTL > 0 && ok(1) then old(ranking)[gateway := 0.0] else old(ranking)
      ensures instances == if done then old(instances) + {gateway} else old(instances)
      ensures routes == old(routes)
    {
      if !ok(0) || config.gatewayTTL <= 0 { return false; }
      var info := GatewayInfo(gateway, address, port, capacity, 0.0, 0);
      infos := infos[gateway := Key(Json(info), now + config.gatewayTTL)];
      if !ok(1) { return false; }
      ranking := ranking[gateway := 0.0];
      if !ok(2) { return false; }
      instances := instances + {gateway};
      return true;
    }

    method UpdateHeartbeat(gateway: string, load: real, users: int, ok: Commands) returns (done: bool)
      modifies this
      ensures View() == Heartbeat(old(View()), gateway, load, users, ok)
      ensures done <==> ok(0) && Info(old(View()), gateway).Some? && ok(1) && config.gatewayTTL > 0 && ok(2)
      ensures var renews := ok(0) && gateway in old(infos) && now < old(infos)[gateway].deadline && old(infos)[gateway].value.Json?
                            && ok(1) && config.gatewayTTL > 0;
              && infos == (if renews then old(infos)[gateway := Key(Json(old(infos)[gateway].value.value.(load := load, users := users)),
                                                                    now + config.gatewayTTL)]
                           else old(infos))
              && ranking == (if renews && ok(2) then old(ranking)[gateway := load * 1000.0] else old(ranking))
              && instances == old(instances) && routes == old(routes)
    {
      if !ok(0) { return false; }
      var info := Get(infos, gateway, now);
      if info.None? { return false; }
      var info' := info.value.(load := load, users := users);
      if !ok(1) || config.gatewayTTL <= 0 { return false; }
      infos := infos[gateway := Key(Json(info'), now + config.gatewayTTL)];
      if !ok(2) { return false; }
      ranking := ranking[gateway := load * 1000.0];
      return true;
    }

    method UnregisterGateway(gateway: string, ok: Commands) returns (done: bool)
      modifies this
      ensures View() == Unregister(old(View()), gateway, ok)
      ensures done <==> ok(0) && ok(1) && ok(2)
      ensures infos == if ok(0) then old(infos) - {gateway} else old(infos)
      ensures ranking == if ok(0) && ok(1) then old(ranking) - {gateway} else old(ranking)
      ensures instances == if done then old(instances) - {gateway} else old(instances)
      ensures routes == old(routes)
    {
      if !ok(0) { return false; }
      infos := infos - {gateway};
      if !ok(1) { return false; }
      ranking := ranking - {gateway};
      if !ok(2) { return false; }
      instances := instances - {gateway};
      return true;
    }

    method RecordUserConnect(user: int64, gateway: string, ok: Commands) returns (done: bool)
      modifies this`routes
      ensures View() == Connect(old(View()), user, gateway, ok)
      ensures done <==> ConnectWorks(old(View()), gateway, ok)
      ensures done <==> ok(0) && gateway in infos && now < infos[gateway].deadline && infos[gateway].value.Json? && ok(1)
                        && config.routeTTL > 0
      ensures routes == if !done then old(routes)
                        else
                          var info := infos[gateway].value.value;
                          var address := info.address + ":" + JoinedRooms.FormatInt(info.port);
                          old(routes)[user := Key(Json(Route(user, gateway, address, now, true)), now + config.routeTTL)]
    {
      if !ok(0) { return false; }
      var info := Get(infos, gateway, now);
      if info.None? { return false; }
      var route := Route(user, gateway, Address(info.value), now, true);
      if !ok(1) || config.routeTTL <= 0 { return false; }
      routes := routes[user := Key(Json(route), now + config.routeTTL)];
      return true;
    }

    /** No error is reported for an unreadable or missing route, nor for another gateway's. */
    method RecordUserDisconnect(user: int64, gateway: string, ok: Commands) returns (done: bool)
      modifies this`routes
      ensures View() == Disconnect(old(View()), user, gateway, ok)
      ensures !done <==> ok(0) && Exists(old(routes), user, now)
                         && (RouteOf(old(View()), user).None?
                             || (RouteOf(old(View()), user).value.gateway == gateway && !(ok(1) && config.routeTTL > 0)))
      ensures var renews := ok(0) && user in old(routes) && now < old(routes)[user].deadline && old(routes)[user].value.Json?
                            && old(routes)[user].value.value.gateway == gateway && ok(1) && config.routeTTL > 0;
              routes == if renews then old(routes)[user := Key(Json(old(routes)[user].value.value.(connected := false)), now + config.routeTTL)]
                        else old(routes)
    {
      if !ok(0) || !Exists(routes, user, now) { return true; }
      var route := Get(routes, user, now);
      if route.None? { return false; }
      if route.value.gateway != gateway { return true; }
      var route' := route.value.(connected := false);
      if !ok(1) || config.routeTTL <= 0 { return false; }
      routes := routes[user := Key(Json(route'), now + config.routeTTL)];
      return true;
    }

    method GetLowestLoadGateway(ranked: bool, readable: bool) returns (offer: Offer)
      ensures LowestOffer(View(), ranked, readable, offer)
    {
      if !ranked || ranking == map[] { return Refused(NoAvailableGateway); }
      SomeLowest(ranking, ranking.Keys);
      var gateway :| gateway in ranking && forall other | other in ranking :: ranking[gateway] <= ranking[other];
      assert IsLowest(ranking, gateway);
      offer := OfferOfKey(gateway, readable);
    }

    method OfferOfKey(gateway: string, readable: bool) returns (offer: Offer)
      ensures offer == OfferOf(View(), gateway, readable)
      ensures var readableInfo := readable && gateway in infos && now < infos[gateway].deadline;
              offer == if !readableInfo then Refused(GatewayNotFound)
                       else if infos[gateway].value.Undecodable? then Refused(InvalidGatewayData)
                       else if infos[gateway].value.value.users >= infos[gateway].value.value.capacity then Refused(NoAvailableGateway)
                       else Offered(infos[gateway].value.value)
    {
      if !readable || !Exists(infos, gateway, now) { return Refused(GatewayNotFound); }
      var info := Get(infos, gateway, now);
      if info.None? { return Refused(InvalidGatewayData); }
      if info.value.users >= info.value.capacity { return Refused(NoAvailableGateway); }
      return Offered(info.value);
    }

    method GetAvailableGatewayForUser(user: int64, ok: Commands) returns (offer: Offer)
      ensures MayOffer(View(), user, ok, offer)
      ensures ok(0) && user in routes && now < routes[user].deadline && routes[user].value.Json? ==>
                var gateway := routes[user].value.value.gateway;
                ok(1) && ok(2) && gateway in infos && now < infos[gateway].deadline && infos[gateway].value.Json? ==>
                  offer == Offered(infos[gateway].value.value)
    {
      var route := if ok(0) then Get(routes, user, now) else None;
      if route.Some? {
        if ok(1) && Exists(infos, route.value.gateway, now) {
          var info := if ok(2) then Get(infos, route.value.gateway, now) else None;
          if info.Some? { return Offered(info.value); }
        }
      }
      offer := GetLowestLoadGateway(ok(3), ok(4));
    }

    /** A position without a route, or with one that does not decode, is skipped. An MGET
        that keeps failing reports neither values nor an error, so everybody looks offline. */
    method BatchGetUserRoutes(users: seq<int64>, ok: Commands) returns (found: map<int64, RouteInfo>)
      ensures found == if ok(0) then Routes(View(), users) else map[]
      ensures forall user ::
                && (user in found <==> ok(0) && user in users && user in routes && now < routes[user].deadline && routes[user].value.Json?)
                && (user in found ==>
                      found[user] == RouteInfo(routes[user].value.value.gateway, routes[user].value.value.address))
    {
      found := map[];
      if !ok(0) { return; }
      var values := MGet(routes, users, now);
      for k := 0 to |values|
        invariant found == Routes(View(), users[..k])
      {
        NextRoute(View(), users, k);
        if values[k].Some? && values[k].value.Json? {
          var route := values[k].value.value;
          found := found[users[k] := RouteInfo(route.gateway, route.address)];
        }
      }
      assert users[..|users|] == users;
    }
  }

  lemma NextRoute(r: Registry, users: seq<int64>, k: nat)
    requires k < |users|
    ensures var found := Routes(r, users[..k]);
            Routes(r, users[..k + 1]) ==
            if Seen(r, users[k]).Some? then found[users[k] := Seen(r, users[k]).value] else found
  {
    hide Seen;
    assert users[..k + 1] == users[..k] + [users[k]];
  }

  lemma {:induction false} SomeLowest(ranking: map<string, real>, left: set<string>)
    requires left != {} && left <= ranking.Keys
    ensures exists g :: g in left && forall other | other in left :: ranking[g] <= ranking[other]
    ensures left == ranking.Keys ==> exists g :: IsLowest(ranking, g)
    decreases |left|
  {
    var g :| g in left;
    var low := g;
    if left != {g} {
      SomeLowest(ranking, left - {g});
      var h :| h in left - {g} && forall other | other in left - {g} :: ranking[h] <= ranking[other];
      low := if ranking[g] < ranking[h] then g else h;
    }
    assert forall other | other in left :: other == g || other in left - {g};
    assert low in left && forall other | other in left :: ranking[low] <= ranking[other];
    if left == ranking.Keys {
      assert IsLowest(ranking, low);
    }
  }

  // ---------- Runs ----------

  datatype Action =
    | DoRegister(gateway: string, address: string, port: int64, capacity: int, ok: Commands)
    | DoHeartbeat(gateway: string, load: real, users: int, ok: Commands)
    | DoUnregister(gateway: string, ok: Commands)
    | DoConnect(user: int64, gateway: string, ok: Commands)
    | DoDisconnect(user: int64, gateway: string, ok: Commands)
    | DoDelete(user: int64, ok: Commands)
    | DoTick(seconds: nat)

  function Step(r: Registry, a: Action): Registry {
    match a
    case DoRegister(gateway, address, port, capacity, ok) => Register(r, gateway, address, port, capacity, ok)
    case DoHeartbeat(gateway, load, users, ok) => Heartbeat(r, gateway, load, users, ok)
    case DoUnregister(gateway, ok) => Unregister(r, gateway, ok)
    case DoConnect(user, gateway, ok) => Connect(r, user, gateway, ok)
    case DoDisconnect(user, gateway, ok) => Disconnect(r, user, gateway, ok)
    case DoDelete(user, ok) => DeleteRoute(r, user, ok)
    case DoTick(seconds) => r.(now := r.now + seconds)
  }

  function Run(r: Registry, actions: seq<Action>): Registry {
    if actions == [] then r else Step(Run(r, actions[..|actions| - 1]), actions[|actions| - 1])
  }

  predicate Fresh(r: Registry) {
    r.infos == map[] && r.ranking == map[] && r.instances == {} && r.routes == map[]
  }

  // ---------- A route is its user's last connect ----------

  /** The `i`-th action is a connect of the user that worked. */
  predicate ConnectedAt(r: Registry, actions: seq<Action>, user: int64, i: nat)
    requires i < |actions|
  {
    actions[i].DoConnect? && actions[i].user == user && ConnectWorks(Run(r, actions[..i]), actions[i].gateway, actions[i].ok)
  }

  predicate Deletes(a: Action, user: int64) {
    a.DoDelete? && a.user == user && a.ok(0)
  }

  /** The last connect of the user that worked, if the route was not deleted since. */
  ghost predicate IsLastConnect(r: Registry, actions: seq<Action>, user: int64, i: nat) {
    && i < |actions| && ConnectedAt(r, actions, user, i)
    && forall j | i < j < |actions| :: !ConnectedAt(r, actions, user, j) && !Deletes(actions[j], user)
  }

  predicate Leaves(a: Action, user: int64, gateway: string) {
    a.DoDisconnect? && a.user == user && a.gateway == gateway && a.ok(0) && a.ok(1)
  }

  /** The gateway of the connect at `i` reported a disconnect since. */
  ghost predicate LeftSince(actions: seq<Action>, user: int64, i: nat)
    requires i < |actions| && actions[i].DoConnect?
  {
    exists j :: i < j < |actions| && Leaves(actions[j], user, actions[i].gateway)
  }

  /** The route is what the connect at `i` recorded, marked as left or not. */
  ghost predicate Records(r: Registry, actions: seq<Action>, user: int64, i: nat, route: Route) {
    && IsLastConnect(r, actions, user, i)
    && route.user == user && route.gateway == actions[i].gateway
    && route.address == Address(Info(Run(r, actions[..i]), actions[i].gateway).value)
    && route.connectedAt == Run(r, actions[..i]).now
       && (route.connected <==> !LeftSince(actions, user, i))
  }

  lemma ConfigAndClock(r: Registry, a: Action)
    ensures Step(r, a).config == r.config && Step(r, a).now >= r.now
  {
    hide Address, Info, RouteOf;
  }

  lemma {:induction false} ConfigStays(r: Registry, actions: seq<Action>)
    ensures Run(r, actions).config == r.config
  {
    hide Step;
    if actions != [] {
      ConfigStays(r, actions[..|actions| - 1]);
      ConfigAndClock(Run(r, actions[..|actions| - 1]), actions[|actions| - 1]);
    }
  }

  lemma {:induction false} TimePasses(r: Registry, actions: seq<Action>, i: nat)
    requires i <= |actions|
    ensures Run(r, actions[..i]).now <= Run(r, actions).now
  {
    hide Step;
    if i == |actions| {
      assert actions[..i] == actions;
    } else {
      var before := actions[..|actions| - 1];
      TimePasses(r, before, i);
      assert before[..i] == actions[..i];
      ConfigAndClock(Run(r, before), actions[|actions| - 1]);
    }
  }

  /** Positions before the last mean the same with and without the last action. */
  lemma ConnectedBefore(r: Registry, actions: seq<Action>, user: int64, i: nat)
    requires i < |actions| - 1
    ensures ConnectedAt(r, actions, user, i) <==> ConnectedAt(r, actions[..|actions| - 1], user, i)
    ensures ConnectedAt(r, actions, user, i) ==> actions[i].DoConnect?
    ensures Run(r, actions[..|actions| - 1][..i]) == Run(r, actions[..i])
  {
    assert actions[..|actions| - 1][..i] == actions[..i];
  }

  /** What a step that is not a working connect of the user does to the user's route. */
  lemma RouteAfter(r: Registry, a: Action, user: int64)
    requires !(a.DoConnect? && a.user == user && ConnectWorks(r, a.gateway, a.ok))
    requires RouteOf(Step(r, a), user).Some?
    ensures RouteOf(r, user).Some? && !Deletes(a, user)
    ensures var was, after := RouteOf(r, user).value, RouteOf(Step(r, a), user).value;
            after == if Leaves(a, user, was.gateway) && r.config.routeTTL > 0 then was.(connected := false) else was
  {
    hide Address;
    match a
    case DoRegister(_, _, _, _, _) =>
    case DoHeartbeat(_, _, _, _) =>
    case DoUnregister(_, _) =>
    case DoConnect(_, _, _) =>
    case DoDisconnect(_, _, _) =>
    case DoDelete(_, _) =>
    case DoTick(_) =>
  }

  lemma LastConnectSurvives(r: Registry, actions: seq<Action>, user: int64, i: nat)
    requires actions != [] && IsLastConnect(r, actions[..|actions| - 1], user, i)
    requires !ConnectedAt(r, actions, user, |actions| - 1) && !Deletes(actions[|actions| - 1], user)
    ensures IsLastConnect(r, actions, user, i)
    ensures LeftSince(actions, user, i) <==>
            LeftSince(actions[..|actions| - 1], user, i) || Leaves(actions[|actions| - 1], user, actions[i].gateway)
  {
    hide ConnectedAt, Deletes, Leaves;
    var before := actions[..|actions| - 1];
    ConnectedBefore(r, actions, user, i);
    forall j | i < j < |actions| ensures !ConnectedAt(r, actions, user, j) && !Deletes(actions[j], user) {
      if j < |before| {
        ConnectedBefore(r, actions, user, j);
        assert before[j] == actions[j];
      }
    }
    assert before[i] == actions[i] && actions[i].DoConnect?;
    if LeftSince(before, user, i) {
      var j :| i < j < |before| && Leaves(before[j], user, before[i].gateway);
      assert Leaves(actions[j], user, actions[i].gateway);
    }
    if j :| i < j < |actions| && Leaves(actions[j], user, actions[i].gateway) && j < |before| {
      assert Leaves(before[j], user, before[i].gateway);
    }
  }

  lemma ConnectIsLast(r: Registry, actions: seq<Action>, user: int64)
    requires actions != [] && ConnectedAt(r, actions, user, |actions| - 1)
    ensures RouteOf(Run(r, actions), user).Some?
    ensures Records(r, actions, user, |actions| - 1, RouteOf(Run(r, actions), user).value)
  {
    hide Address;
    var last := actions[|actions| - 1];
    assert Run(r, actions) == Connect(Run(r, actions[..|actions| - 1]), user, last.gateway, last.ok);
  }

  /** Lease state machine: in every run, a route that is present names the gateway of the
      user's last connect that worked, with the address that gateway had then, and it is
      marked disconnected exactly when that same gateway reported a disconnect since. */
  lemma {:induction false} RouteIsLastConnect(r: Registry, actions: seq<Action>, user: int64)
    requires Fresh(r) && RouteOf(Run(r, actions), user).Some?
    ensures exists i :: Records(r, actions, user, i, RouteOf(Run(r, actions), user).value)
  {
    hide RouteOf, Step, Records, ConnectedAt;
    if actions == [] {
      NoRoutes(r, user);
    } else {
      var before, a := actions[..|actions| - 1], actions[|actions| - 1];
      if ConnectedAt(r, actions, user, |before|) {
        ConnectIsLast(r, actions, user);
      } else {
        NotConnected(r, actions, user);
        RouteAfter(Run(r, before), a, user);
        RouteIsLastConnect(r, before, user);
        var i: nat :| Records(r, before, user, i, RouteOf(Run(r, before), user).value);
        RecordSurvives(r, actions, user, i, RouteOf(Run(r, before), user).value);
      }
    }
  }

  lemma NoRoutes(r: Registry, user: int64)
    requires Fresh(r)
    ensures RouteOf(r, user).None?
  {
  }

  lemma NotConnected(r: Registry, actions: seq<Action>, user: int64)
    requires actions != [] && !ConnectedAt(r, actions, user, |actions| - 1)
    ensures var a := actions[|actions| - 1];
            !(a.DoConnect? && a.user == user && ConnectWorks(Run(r, actions[..|actions| - 1]), a.gateway, a.ok))
  {
  }

  lemma RecordSurvives(r: Registry, actions: seq<Action>, user: int64, i: nat, was: Route)
    requires actions != [] && Records(r, actions[..|actions| - 1], user, i, was)
    requires !ConnectedAt(r, actions, user, |actions| - 1) && !Deletes(actions[|actions| - 1], user)
    ensures var a := actions[|actions| - 1];
            && Run(r, actions[..|actions| - 1]).config.routeTTL > 0
            && Records(r, actions, user, i, if Leaves(a, user, was.gateway) then was.(connected := false) else was)
  {
    hide Address, Leaves, Deletes, LeftSince, Run;
    LastConnectSurvives(r, actions, user, i);
    ConnectedBefore(r, actions, user, i);
    ConfigStays(r, actions[..i]);
    ConfigStays(r, actions[..|actions| - 1]);
    assert actions[..|actions| - 1][i] == actions[i];
  }

  /** A connect keeps its route alive for at least the TTL. */
  lemma {:induction false} RouteLastsItsTTL(r: Registry, actions: seq<Action>, user: int64, i: nat)
    requires IsLastConnect(r, actions, user, i)
    ensures var s := Run(r, actions);
            user in s.routes && s.routes[user].value.Json? && s.routes[user].deadline >= Run(r, actions[..i]).now + r.config.routeTTL
  {
    hide Address, Info;
    var before, a := actions[..|actions| - 1], actions[|actions| - 1];
    ConfigStays(r, before);
    TimePasses(r, before, i);
    assert before[..i] == actions[..i];
    if i == |before| {
      assert Run(r, actions) == Connect(Run(r, before), user, a.gateway, a.ok);
    } else {
      forall j | i <= j < |before| ensures ConnectedAt(r, before, user, j) <==> ConnectedAt(r, actions, user, j) {
        ConnectedBefore(r, actions, user, j);
      }
      assert forall j | 0 <= j < |before| :: before[j] == actions[j];
      assert IsLastConnect(r, before, user, i);
      RouteLastsItsTTL(r, before, user, i);
      NotConnected(r, actions, user);
      KeyAfter(Run(r, before), a, user);
    }
  }

  lemma KeyAfter(r: Registry, a: Action, user: int64)
    requires !(a.DoConnect? && a.user == user && ConnectWorks(r, a.gateway, a.ok)) && !Deletes(a, user)
    requires user in r.routes && r.routes[user].value.Json?
    ensures var s := Step(r, a);
            user in s.routes && s.routes[user].value.Json?
            && (s.routes[user].deadline == r.routes[user].deadline || s.routes[user].deadline == r.now + r.config.routeTTL)
  {
    hide Address, Info;
  }

  /** For less than the TTL after the user's last connect, the route is there and names that
      gateway, with the host and port it had registered. */
  lemma RouteIsThere(r: Registry, actions: seq<Action>, user: int64, i: nat)
    requires Fresh(r) && IsLastConnect(r, actions, user, i) && Run(r, actions).now < Run(r, actions[..i]).now + r.config.routeTTL
    ensures var recorded, gateway := Run(r, actions[..i]), actions[i].gateway;
            && gateway in recorded.infos && recorded.now < recorded.infos[gateway].deadline && recorded.infos[gateway].value.Json?
            && RouteOf(Run(r, actions), user).Some?
            && RouteOf(Run(r, actions), user).value.gateway == gateway
            && RouteOf(Run(r, actions), user).value.address ==
               recorded.infos[gateway].value.value.address + ":" + JoinedRooms.FormatInt(recorded.infos[gateway].value.value.port)
  {
    hide Run, IsLastConnect;
    RouteLastsItsTTL(r, actions, user, i);
    RouteIsLastConnect(r, actions, user);
    var k: nat :| Records(r, actions, user, k, RouteOf(Run(r, actions), user).value);
    OneLastConnect(r, actions, user, i, k);
    LastConnectWorked(r, actions, user, i);
  }

  lemma OneLastConnect(r: Registry, actions: seq<Action>, user: int64, i: nat, k: nat)
    requires IsLastConnect(r, actions, user, i) && IsLastConnect(r, actions, user, k)
    ensures i == k
  {
    hide ConnectedAt, Run;
    assert !(i < k) && !(k < i);
  }

  lemma LastConnectWorked(r: Registry, actions: seq<Action>, user: int64, i: nat)
    requires IsLastConnect(r, actions, user, i)
    ensures i < |actions| && actions[i].DoConnect?
    ensures ConnectWorks(Run(r, actions[..i]), actions[i].gateway, actions[i].ok)
  {
    hide Run, ConnectWorks;
  }

  /** If its gateway has not reported a disconnect since, the route is gone when the TTL is over. */
  lemma {:induction false} RouteLapses(r: Registry, actions: seq<Action>, user: int64, i: nat)
    requires IsLastConnect(r, actions, user, i) && actions[i].DoConnect? && !LeftSince(actions, user, i)
    ensures var s := Run(r, actions);
            && user in s.routes && s.routes[user].value.Json? && s.routes[user].value.value.gateway == actions[i].gateway
            && s.routes[user].deadline == Run(r, actions[..i]).now + r.config.routeTTL
  {
    hide Address, Info;
    var before, a := actions[..|actions| - 1], actions[|actions| - 1];
    ConfigStays(r, before);
    assert before[..i] == actions[..i];
    if i == |before| {
      assert Run(r, actions) == Connect(Run(r, before), user, a.gateway, a.ok);
    } else {
      StillLastConnect(r, actions, user, i);
      RouteLapses(r, before, user, i);
      NotConnected(r, actions, user);
      assert !Leaves(a, user, actions[i].gateway);
      KeyStays(Run(r, before), a, user);
    }
  }

  lemma StillLastConnect(r: Registry, actions: seq<Action>, user: int64, i: nat)
    requires IsLastConnect(r, actions, user, i) && i < |actions| - 1
    ensures var before := actions[..|actions| - 1];
            && IsLastConnect(r, before, user, i) && before[i] == actions[i] && actions[i].DoConnect?
            && !ConnectedAt(r, actions, user, |actions| - 1) && !Deletes(actions[|actions| - 1], user)
            && (!LeftSince(actions, user, i) ==> !LeftSince(before, user, i))
  {
    hide Run, ConnectWorks;
    var before := actions[..|actions| - 1];
    forall j | i <= j < |before| ensures ConnectedAt(r, before, user, j) <==> ConnectedAt(r, actions, user, j) {
      ConnectedBefore(r, actions, user, j);
    }
    assert forall j | 0 <= j < |before| :: before[j] == actions[j];
    if LeftSince(before, user, i) {
      var j :| i < j < |before| && Leaves(before[j], user, before[i].gateway);
      assert Leaves(actions[j], user, actions[i].gateway);
    }
  }

  lemma KeyStays(r: Registry, a: Action, user: int64)
    requires !(a.DoConnect? && a.user == user && ConnectWorks(r, a.gateway, a.ok)) && !Deletes(a, user)
    requires user in r.routes && r.routes[user].value.Json? && !Leaves(a, user, r.routes[user].value.value.gateway)
    ensures user in Step(r, a).routes && Step(r, a).routes[user] == r.routes[user]
  {
    hide Address, Info;
  }

  /** A disconnect reported by any other gateway than that of the last connect, however late,
      changes nothing. */
  lemma LateDisconnectChangesNothing(r: Registry, actions: seq<Action>, user: int64, i: nat, gateway: string, ok: Commands)
    requires Fresh(r) && IsLastConnect(r, actions, user, i) && actions[i].gateway != gateway
    ensures Disconnect(Run(r, actions), user, gateway, ok) == Run(r, actions)
  {
    hide Run, ConnectedAt;
    if RouteOf(Run(r, actions), user).Some? {
      RouteIsLastConnect(r, actions, user);
      var k: nat :| Records(r, actions, user, k, RouteOf(Run(r, actions), user).value);
      assert !(i < k) && !(k < i);
    }
  }

  // ---------- A connect in the middle of a disconnect ----------

  /** The SETEX of a disconnect whose GET saw `route`. */
  function WriteDisconnect(r: Registry, user: int64, route: Route): Registry {
    SetRoute(r, user, route.(connected := false))
  }

  /** Two states of what one connect recorded. */
  predicate SameConnect(route: Route, route': Route) {
    route'.(connected := false) == route.(connected := false)
  }

  lemma {:induction false} RouteWithoutConnects(r: Registry, before: seq<Action>, during: seq<Action>, user: int64)
    requires forall j | |before| <= j < |before + during| :: !ConnectedAt(r, before + during, user, j)
    requires RouteOf(Run(r, before + during), user).Some?
    ensures RouteOf(Run(r, before), user).Some?
    ensures SameConnect(RouteOf(Run(r, before + during), user).value, RouteOf(Run(r, before), user).value)
    decreases |during|
  {
    hide RouteOf, Step, ConnectedAt;
    if during == [] {
      assert before + during == before;
    } else {
      var n, all := |during| - 1, before + during;
      var fewer := before + during[..n];
      assert all[..|all| - 1] == fewer;
      NotConnected(r, all, user);
      RouteAfter(Run(r, fewer), all[|all| - 1], user);
      forall j | |before| <= j < |fewer| ensures !ConnectedAt(r, fewer, user, j) { ConnectedBefore(r, all, user, j); }
      RouteWithoutConnects(r, before, during[..n], user);
    }
  }

  lemma WritesExactly(r: Registry, user: int64, route: Route, ok: Commands)
    requires r.config.routeTTL > 0 && forall n: nat :: ok(n)
    ensures WriteDisconnect(r, user, route) == Disconnect(r, user, route.gateway, ok)
            <==> RouteOf(r, user).Some? && SameConnect(RouteOf(r, user).value, route)
    ensures RouteOf(WriteDisconnect(r, user, route), user) == Some(route.(connected := false))
  {
  }

  /** A disconnect reads the route, and anything happens before it writes it back: that amounts
      to a disconnect at the moment of the write if and only if the route still is there and of
      the same connect. It is, as long as it has not expired and the user has not connected in
      between; a connect to another gateway in between is overwritten with the old one. */
  lemma OverlappedDisconnectExactly(r: Registry, before: seq<Action>, during: seq<Action>, user: int64, route: Route,
                                    ok: Commands)
    requires Fresh(r) && RouteOf(Run(r, before), user) == Some(route) && r.config.routeTTL > 0 && forall n: nat :: ok(n)
    ensures var all := before + during;
            var late := Run(r, all);
            var kept := RouteOf(late, user).Some? && SameConnect(RouteOf(late, user).value, route);
            && (WriteDisconnect(late, user, route) == Disconnect(late, user, route.gateway, ok) <==> kept)
            && (RouteOf(late, user).Some? && (forall j | |before| <= j < |all| :: !ConnectedAt(r, all, user, j)) ==> kept)
            && RouteOf(WriteDisconnect(late, user, route), user) == Some(route.(connected := false))
            && (forall i: nat | IsLastConnect(r, all, user, i) && all[i].gateway != route.gateway :: !kept)
  {
    hide Run, RouteOf, ConnectedAt, Disconnect;
    var all := before + during;
    var late := Run(r, all);
    ConfigStays(r, all);
    WritesExactly(late, user, route, ok);
    if RouteOf(late, user).Some? {
      if forall j | |before| <= j < |all| :: !ConnectedAt(r, all, user, j) {
        RouteWithoutConnects(r, before, during, user);
      }
      RouteIsLastConnect(r, all, user);
      var k: nat :| Records(r, all, user, k, RouteOf(late, user).value);
      forall i: nat | IsLastConnect(r, all, user, i) ensures i == k { assert !(i < k) && !(k < i); }
    }
  }

  // ---------- Which gateway is offered ----------

  /** A user is only ever offered a gateway whose lease is alive: that of the user's own
      route, or one of minimal score with spare capacity. */
  lemma {:induction false} OfferIsSound(r: Registry, user: int64, ok: Commands, offer: Offer)
    requires MayOffer(r, user, ok, offer) && offer.Offered?
    ensures exists gateway :: Info(r, gateway) == Some(offer.info)
              && ((RouteOf(r, user).Some? && RouteOf(r, user).value.gateway == gateway)
                  || (IsLowest(r.ranking, gateway) && offer.info.users < offer.info.capacity))
  {
    if Usable(r, user, ok).Some? {
      assert Info(r, RouteOf(r, user).value.gateway) == Some(offer.info);
    } else {
      var gateway :| IsLowest(r.ranking, gateway) && offer == OfferOf(r, gateway, ok(4));
      assert Info(r, gateway) == Some(offer.info);
    }
  }

  /** In every run a user is only offered a gateway with a lease that either is the one of the
      user's last working connect or has room and minimal score. */
  lemma {:induction false} OfferIsGrounded(r: Registry, actions: seq<Action>, user: int64, ok: Commands, offer: Offer)
    requires Fresh(r) && MayOffer(Run(r, actions), user, ok, offer) && offer.Offered?
    ensures exists gateway :: Info(Run(r, actions), gateway) == Some(offer.info)
              && ((exists i: nat :: IsLastConnect(r, actions, user, i) && actions[i].gateway == gateway)
                  || (IsLowest(Run(r, actions).ranking, gateway) && offer.info.users < offer.info.capacity))
  {
    hide Run, MayOffer, RouteOf;
    var s := Run(r, actions);
    OfferIsSound(s, user, ok, offer);
    var gateway :| Info(s, gateway) == Some(offer.info)
                   && ((RouteOf(s, user).Some? && RouteOf(s, user).value.gateway == gateway)
                       || (IsLowest(s.ranking, gateway) && offer.info.users < offer.info.capacity));
    if RouteOf(s, user).Some? {
      RouteIsLastConnect(r, actions, user);
      var i: nat :| Records(r, actions, user, i, RouteOf(s, user).value);
    }
  }

  /** The gateway has a lease and room. */
  predicate HasRoom(r: Registry, gateway: string) {
    Info(r, gateway).Some? && Info(r, gateway).value.users < Info(r, gateway).value.capacity
  }

  /** With all commands working, a user without a usable route is certain to be served
      exactly when every gateway of minimal score has a lease and room, and may be served
      exactly when some gateway of minimal score has; whether others have does not matter. */
  lemma {:induction false} ServedExactly(r: Registry, user: int64, ok: Commands)
    requires forall n: nat :: ok(n)
    ensures (forall offer :: MayOffer(r, user, ok, offer) ==> offer.Offered?) <==>
            Usable(r, user, ok).Some? || (r.ranking != map[] && forall g | IsLowest(r.ranking, g) :: HasRoom(r, g))
    ensures (exists offer :: MayOffer(r, user, ok, offer) && offer.Offered?) <==>
            Usable(r, user, ok).Some? || exists g :: IsLowest(r.ranking, g) && HasRoom(r, g)
  {
    hide Usable, HasRoom;
    if Usable(r, user, ok).Some? {
      assert MayOffer(r, user, ok, Offered(Usable(r, user, ok).value));
    } else if r.ranking == map[] {
      assert MayOffer(r, user, ok, Refused(NoAvailableGateway));
    } else {
      forall g | IsLowest(r.ranking, g)
        ensures MayOffer(r, user, ok, OfferOf(r, g, true)) && (OfferOf(r, g, true).Offered? <==> HasRoom(r, g))
      {
        OfferedMeansRoom(r, g);
      }
    }
  }

  lemma OfferedMeansRoom(r: Registry, gateway: string)
    ensures OfferOf(r, gateway, true).Offered? <==> HasRoom(r, gateway)
  {
  }

  // ---------- The ranking ----------

  /** Every gateway with a lease is ranked by its last reported load. */
  ghost predicate Ranked(r: Registry) {
    forall gateway :: RankedAt(r, gateway)
  }

  predicate RankedAt(r: Registry, gateway: string) {
    Info(r, gateway).Some? ==>
      gateway in r.ranking && r.ranking[gateway] == Info(r, gateway).value.load * 1000.0
  }

  /** The info was written, the ranking was not, and the two now differ. */
  predicate Tears(r: Registry, a: Action) {
    r.config.gatewayTTL > 0 &&
    match a
    case DoRegister(gateway, _, _, _, ok) =>
      ok(0) && !ok(1) && !(gateway in r.ranking && r.ranking[gateway] == 0.0)
    case DoHeartbeat(gateway, load, _, ok) =>
      ok(0) && Info(r, gateway).Some? && ok(1) && !ok(2) && !(gateway in r.ranking && r.ranking[gateway] == load * 1000.0)
    case _ => false
  }

  lemma RankedAfter(r: Registry, a: Action, gateway: string)
    requires RankedAt(r, gateway)
    ensures RankedAt(Step(r, a), gateway) <==>
            !(Tears(r, a) && (a.DoRegister? || a.DoHeartbeat?) && a.gateway == gateway)
  {
    hide Address;
    match a
    case DoRegister(_, _, _, _, _) =>
    case DoHeartbeat(_, _, _, _) =>
    case DoUnregister(_, _) =>
    case DoConnect(_, _, _) =>
    case DoDisconnect(_, _, _) =>
    case DoDelete(_, _) =>
    case DoTick(_) =>
  }

  /** A step keeps the ranking in line with the leases unless it fails between the two. */
  lemma StepRankedExactly(r: Registry, a: Action)
    requires Ranked(r)
    ensures Ranked(Step(r, a)) <==> !Tears(r, a)
  {
    hide RankedAt, Step;
    forall gateway ensures RankedAt(Step(r, a), gateway) <==>
                           !(Tears(r, a) && (a.DoRegister? || a.DoHeartbeat?) && a.gateway == gateway) {
      assert RankedAt(r, gateway);
      RankedAfter(r, a, gateway);
    }
    if Tears(r, a) {
      assert !RankedAt(Step(r, a), a.gateway);
    }
  }

  ghost predicate NeverTears(r: Registry, actions: seq<Action>) {
    forall i | 0 <= i < |actions| :: !Tears(Run(r, actions[..i]), actions[i])
  }

  lemma {:induction false} RunKeepsRanked(r: Registry, actions: seq<Action>)
    requires Fresh(r) && NeverTears(r, actions)
    ensures Ranked(Run(r, actions))
  {
    hide Tears, Step;
    if actions != [] {
      var before := actions[..|actions| - 1];
      forall i | 0 <= i < |before| ensures !Tears(Run(r, before[..i]), before[i]) {
        assert before[..i] == actions[..i] && before[i] == actions[i];
        assert !Tears(Run(r, actions[..i]), actions[i]);
      }
      RunKeepsRanked(r, before);
      assert !Tears(Run(r, actions[..|before|]), actions[|before|]);
      StepRankedExactly(Run(r, before), actions[|before|]);
    }
  }

  /** In every run whose writes are not torn, a user without a usable route is only offered a
      gateway with a lease, with room, and with no more load than any other with a lease. */
  lemma {:induction false} OfferedIsLeastLoaded(r: Registry, actions: seq<Action>, user: int64, ok: Commands,
                                                offer: Offer, other: string)
    requires Fresh(r) && NeverTears(r, actions)
    requires var s := Run(r, actions);
             Usable(s, user, ok).None? && MayOffer(s, user, ok, offer) && offer.Offered? && Info(s, other).Some?
    ensures offer.info.load <= Info(Run(r, actions), other).value.load && offer.info.users < offer.info.capacity
  {
    hide Run, Usable;
    var s := Run(r, actions);
    RunKeepsRanked(r, actions);
    var gateway :| IsLowest(s.ranking, gateway) && offer == OfferOf(s, gateway, ok(4));
    assert RankedAt(s, gateway) && RankedAt(s, other);
    assert s.ranking[gateway] <= s.ranking[other];
  }

  // ---------- What a lease says of its gateway ----------

  /** A registration of the gateway that wrote its lease. */
  predicate RegisteredAt(r: Registry, actions: seq<Action>, gateway: string, i: nat)
    requires i < |actions|
  {
    actions[i].DoRegister? && actions[i].gateway == gateway && actions[i].ok(0) && r.config.gatewayTTL > 0
  }

  /** A heartbeat of the gateway that found its lease and renewed it. */
  predicate RenewedAt(r: Registry, actions: seq<Action>, gateway: string, i: nat)
    requires i < |actions|
  {
    && actions[i].DoHeartbeat? && actions[i].gateway == gateway && actions[i].ok(0) && actions[i].ok(1)
    && Info(Run(r, actions[..i]), gateway).Some? && r.config.gatewayTTL > 0
  }

  /** The gateway's last registration is the one at `k`, and the lease holds what that said and
      the load and users of the last heartbeat since, if there was one. */
  ghost predicate Reports(r: Registry, actions: seq<Action>, gateway: string, k: nat, info: GatewayInfo) {
    && k < |actions| && RegisteredAt(r, actions, gateway, k)
    && (forall j | k < j < |actions| :: !RegisteredAt(r, actions, gateway, j))
    && info.id == gateway && info.address == actions[k].address && info.port == actions[k].port
    && info.capacity == actions[k].capacity
    && ((info.load == 0.0 && info.users == 0 && forall j | k < j < |actions| :: !RenewedAt(r, actions, gateway, j))
        || exists h :: LastHeartbeat(r, actions, gateway, k, h, info))
  }

  ghost predicate LastHeartbeat(r: Registry, actions: seq<Action>, gateway: string, k: nat, h: nat, info: GatewayInfo) {
    && k < h < |actions| && RenewedAt(r, actions, gateway, h)
    && (forall j | h < j < |actions| :: !RenewedAt(r, actions, gateway, j))
    && info.load == actions[h].load && info.users == actions[h].users
  }

  lemma InfoAfter(r: Registry, a: Action, gateway: string)
    requires Info(Step(r, a), gateway).Some?
    ensures var info := Info(Step(r, a), gateway).value;
            if a.DoRegister? && a.gateway == gateway && a.ok(0) && r.config.gatewayTTL > 0 then
              info == GatewayInfo(gateway, a.address, a.port, a.capacity, 0.0, 0)
            else
              && Info(r, gateway).Some?
              && info == if a.DoHeartbeat? && a.gateway == gateway && a.ok(0) && a.ok(1) && r.config.gatewayTTL > 0
                         then Info(r, gateway).value.(load := a.load, users := a.users) else Info(r, gateway).value
  {
    hide Address;
    match a
    case DoRegister(_, _, _, _, _) =>
    case DoHeartbeat(_, _, _, _) =>
    case DoUnregister(_, _) =>
    case DoConnect(_, _, _) =>
    case DoDisconnect(_, _, _) =>
    case DoDelete(_, _) =>
    case DoTick(_) =>
  }

  lemma EarlierReports(r: Registry, actions: seq<Action>, gateway: string, j: nat)
    requires j < |actions| - 1
    ensures var before := actions[..|actions| - 1];
            && (RegisteredAt(r, actions, gateway, j) <==> RegisteredAt(r, before, gateway, j))
            && (RenewedAt(r, actions, gateway, j) <==> RenewedAt(r, before, gateway, j)) && before[j] == actions[j]
  {
    hide Run;
    assert actions[..|actions| - 1][..j] == actions[..j];
  }

  lemma ReportSurvives(r: Registry, actions: seq<Action>, gateway: string, k: nat, info: GatewayInfo)
    requires actions != [] && Reports(r, actions[..|actions| - 1], gateway, k, info)
    requires !RegisteredAt(r, actions, gateway, |actions| - 1)
    ensures var a := actions[|actions| - 1];
            Reports(r, actions, gateway, k, if RenewedAt(r, actions, gateway, |actions| - 1) then info.(load := a.load, users := a.users)
                                            else info)
  {
    hide RegisteredAt, RenewedAt;
    var before, last := actions[..|actions| - 1], |actions| - 1;
    EarlierReports(r, actions, gateway, k);
    forall j | k < j < |actions| ensures !RegisteredAt(r, actions, gateway, j) {
      if j < last { EarlierReports(r, actions, gateway, j); }
    }
    forall j | k < j < last ensures RenewedAt(r, actions, gateway, j) <==> RenewedAt(r, before, gateway, j) {
      EarlierReports(r, actions, gateway, j);
    }
    Survives(r, actions, gateway, k, info);
  }

  lemma Survives(r: Registry, actions: seq<Action>, gateway: string, k: nat, info: GatewayInfo)
    requires actions != [] && Reports(r, actions[..|actions| - 1], gateway, k, info)
    requires RegisteredAt(r, actions, gateway, k) && actions[..|actions| - 1][k] == actions[k]
    requires forall j | k < j < |actions| :: !RegisteredAt(r, actions, gateway, j)
    requires forall j | k < j < |actions| - 1 ::
               RenewedAt(r, actions, gateway, j) <==> RenewedAt(r, actions[..|actions| - 1], gateway, j)
    ensures var a := actions[|actions| - 1];
            Reports(r, actions, gateway, k, if RenewedAt(r, actions, gateway, |actions| - 1) then info.(load := a.load, users := a.users)
                                            else info)
  {
    hide RegisteredAt, Info, Run;
    var before, a := actions[..|actions| - 1], actions[|actions| - 1];
    if RenewedAt(r, actions, gateway, |actions| - 1) {
      assert LastHeartbeat(r, actions, gateway, k, |actions| - 1, info.(load := a.load, users := a.users));
    } else if h: nat :| LastHeartbeat(r, before, gateway, k, h, info) {
      assert before[h] == actions[h] && RenewedAt(r, actions, gateway, h);
      assert LastHeartbeat(r, actions, gateway, k, h, info);
    }
  }

  /** In every run a lease holds the address, port and capacity of its gateway's last
      registration, and the load and number of users of its last heartbeat since. */
  lemma {:induction false} LeaseIsLastReport(r: Registry, actions: seq<Action>, gateway: string)
    requires Fresh(r) && Info(Run(r, actions), gateway).Some?
    ensures exists k: nat :: Reports(r, actions, gateway, k, Info(Run(r, actions), gateway).value)
  {
    hide Step, Info, Reports, RegisteredAt, RenewedAt;
    if actions == [] {
      NoInfo(r, gateway);
    } else {
      var before, a := actions[..|actions| - 1], actions[|actions| - 1];
      ConfigStays(r, before);
      InfoAfter(Run(r, before), a, gateway);
      LastReport(r, actions, gateway);
      if RegisteredAt(r, actions, gateway, |before|) {
        FirstReport(r, actions, gateway, Info(Run(r, actions), gateway).value);
      } else {
        LeaseIsLastReport(r, before, gateway);
        var k: nat :| Reports(r, before, gateway, k, Info(Run(r, before), gateway).value);
        ReportSurvives(r, actions, gateway, k, Info(Run(r, before), gateway).value);
      }
    }
  }

  lemma NoInfo(r: Registry, gateway: string)
    requires Fresh(r)
    ensures Info(r, gateway).None?
  {
  }

  lemma LastReport(r: Registry, actions: seq<Action>, gateway: string)
    requires actions != []
    ensures var a := actions[|actions| - 1];
            && (RegisteredAt(r, actions, gateway, |actions| - 1) <==>
                a.DoRegister? && a.gateway == gateway && a.ok(0) && r.config.gatewayTTL > 0)
            && (RenewedAt(r, actions, gateway, |actions| - 1) <==>
                a.DoHeartbeat? && a.gateway == gateway && a.ok(0) && a.ok(1)
                && Info(Run(r, actions[..|actions| - 1]), gateway).Some? && r.config.gatewayTTL > 0)
  {
    hide Run, Info;
  }

  lemma FirstReport(r: Registry, actions: seq<Action>, gateway: string, info: GatewayInfo)
    requires actions != [] && RegisteredAt(r, actions, gateway, |actions| - 1)
    requires var a := actions[|actions| - 1]; info == GatewayInfo(gateway, a.address, a.port, a.capacity, 0.0, 0)
    ensures Reports(r, actions, gateway, |actions| - 1, info)
  {
  }

  /** The gateway's last registration or heartbeat that worked, if it did not unregister since. */
  ghost predicate IsLastReport(r: Registry, actions: seq<Action>, gateway: string, i: nat) {
    && i < |actions| && (RegisteredAt(r, actions, gateway, i) || RenewedAt(r, actions, gateway, i))
    && (forall j | i < j < |actions| ::
          !RegisteredAt(r, actions, gateway, j) && !RenewedAt(r, actions, gateway, j) && !Unregisters(actions[j], gateway))
  }

  predicate Unregisters(a: Action, gateway: string) {
    a.DoUnregister? && a.gateway == gateway && a.ok(0)
  }

  lemma ReportWrites(r: Registry, actions: seq<Action>, gateway: string)
    requires actions != []
    requires RegisteredAt(r, actions, gateway, |actions| - 1) || RenewedAt(r, actions, gateway, |actions| - 1)
    ensures var s := Run(r, actions);
            && gateway in s.infos && s.infos[gateway].value.Json?
            && s.infos[gateway].deadline == Run(r, actions[..|actions| - 1]).now + Run(r, actions[..|actions| - 1]).config.gatewayTTL
  {
    hide Run;
    var before, a := actions[..|actions| - 1], actions[|actions| - 1];
    ConfigStays(r, before);
    assert Run(r, actions) == Step(Run(r, before), a) by { RunLast(r, actions); }
  }

  lemma RunLast(r: Registry, actions: seq<Action>)
    requires actions != []
    ensures Run(r, actions) == Step(Run(r, actions[..|actions| - 1]), actions[|actions| - 1])
  {
  }

  lemma LeaseStays(r: Registry, a: Action, gateway: string)
    requires gateway in r.infos && !Unregisters(a, gateway)
    requires !(a.DoRegister? && a.gateway == gateway && a.ok(0) && r.config.gatewayTTL > 0)
    requires !(a.DoHeartbeat? && a.gateway == gateway && a.ok(0) && a.ok(1) && Info(r, gateway).Some? && r.config.gatewayTTL > 0)
    ensures gateway in Step(r, a).infos && Step(r, a).infos[gateway] == r.infos[gateway]
  {
    hide Address;
  }

  /** A lease lives exactly for its TTL after the last registration or heartbeat. */
  lemma {:induction false} LeaseEndsExactly(r: Registry, actions: seq<Action>, gateway: string, i: nat)
    requires IsLastReport(r, actions, gateway, i)
    ensures Info(Run(r, actions), gateway).Some? <==> Run(r, actions).now < Run(r, actions[..i]).now + r.config.gatewayTTL
  {
    hide Run, IsLastReport;
    LeaseDeadline(r, actions, gateway, i);
  }

  lemma {:induction false} LeaseDeadline(r: Registry, actions: seq<Action>, gateway: string, i: nat)
    requires IsLastReport(r, actions, gateway, i)
    ensures var s := Run(r, actions);
            && i < |actions| && gateway in s.infos && s.infos[gateway].value.Json?
            && s.infos[gateway].deadline == Run(r, actions[..i]).now + r.config.gatewayTTL
  {
    hide Step, Info, RegisteredAt, RenewedAt;
    var before, a := actions[..|actions| - 1], actions[|actions| - 1];
    ConfigStays(r, before);
    assert before[..i] == actions[..i];
    if i == |before| {
      ReportWrites(r, actions, gateway);
    } else {
      EarlierReports(r, actions, gateway, i);
      forall j | i < j < |before| ensures !RegisteredAt(r, before, gateway, j) && !RenewedAt(r, before, gateway, j)
                                          && !Unregisters(before[j], gateway) {
        EarlierReports(r, actions, gateway, j);
      }
      LeaseDeadline(r, before, gateway, i);
      LastReport(r, actions, gateway);
      assert !Unregisters(a, gateway);
      LeaseStays(Run(r, before), a, gateway);
    }
  }

  // ---------- Instances and unregistration ----------

  /** Every command of a registration, heartbeat or unregistration works. */
  ghost predicate AllWork(a: Action) {
    (a.DoRegister? || a.DoHeartbeat? || a.DoUnregister?) ==> forall n: nat :: a.ok(n)
  }

  /** As long as no command fails, the instance set and the ranking list the same gateways. */
  lemma StepKeepsListed(r: Registry, a: Action)
    requires Ranked(r) && r.instances == r.ranking.Keys && AllWork(a)
    ensures Ranked(Step(r, a)) && Step(r, a).instances == Step(r, a).ranking.Keys
  {
    hide Address;
    StepRankedExactly(r, a);
    if a.DoHeartbeat? {
      assert RankedAt(r, a.gateway);
    }
  }

  /** The same over every run from an empty registry. */
  lemma {:induction false} InstancesAreRanked(r: Registry, actions: seq<Action>)
    requires Fresh(r) && forall i | 0 <= i < |actions| :: AllWork(actions[i])
    ensures Ranked(Run(r, actions)) && Run(r, actions).instances == Run(r, actions).ranking.Keys
  {
    hide Step, AllWork;
    if actions != [] {
      InstancesAreRanked(r, actions[..|actions| - 1]);
      assert AllWork(actions[|actions| - 1]);
      StepKeepsListed(Run(r, actions[..|actions| - 1]), actions[|actions| - 1]);
    }
  }

  lemma GoneAfter(r: Registry, a: Action, gateway: string)
    requires !Exists(r.infos, gateway, r.now) && !(a.DoRegister? && a.gateway == gateway)
    ensures !Exists(Step(r, a).infos, gateway, Step(r, a).now)
  {
    hide Address;
  }

  /** A gateway that unregistered has no lease, and heartbeats do not bring it back: until it
      registers again, nobody can connect to it. */
  lemma {:induction false} UnregisteredStaysGone(r: Registry, actions: seq<Action>, gateway: string, ok: Commands)
    requires actions != [] && actions[0].DoUnregister? && actions[0].gateway == gateway && actions[0].ok(0)
    requires forall i | 0 <= i < |actions| :: !(actions[i].DoRegister? && actions[i].gateway == gateway)
    ensures var s := Run(r, actions);
            !Exists(s.infos, gateway, s.now) && Info(s, gateway).None? && !ConnectWorks(s, gateway, ok)
  {
    hide Step;
    var before, a := actions[..|actions| - 1], actions[|actions| - 1];
    if before == [] {
      UnregisterRemoves(r, a);
    } else {
      UnregisteredStaysGone(r, before, gateway, ok);
      GoneAfter(Run(r, before), a, gateway);
    }
  }

  lemma UnregisterRemoves(r: Registry, a: Action)
    requires a.DoUnregister? && a.ok(0)
    ensures var s := Step(r, a); !Exists(s.infos, a.gateway, s.now)
  {
  }

  // ---------- Dead gateways stay ranked ----------

  ghost predicate Untouched(actions: seq<Action>, gateway: string) {
    forall i | 0 <= i < |actions| ::
      !((actions[i].DoRegister? || actions[i].DoUnregister?) && actions[i].gateway == gateway)
  }

  lemma {:induction false} DeadStaysRanked(r: Registry, actions: seq<Action>, gateway: string)
    requires !Exists(r.infos, gateway, r.now) && gateway in r.ranking && Untouched(actions, gateway)
    ensures var s := Run(r, actions);
            !Exists(s.infos, gateway, s.now) && gateway in s.ranking && s.ranking[gateway] == r.ranking[gateway]
  {
    hide Address;
    if actions != [] {
      var before := actions[..|actions| - 1];
      DeadStaysRanked(r, before, gateway);
      DeadAfter(Run(r, before), actions[|before|], gateway);
    }
  }

  lemma DeadAfter(r: Registry, a: Action, gateway: string)
    requires !Exists(r.infos, gateway, r.now) && gateway in r.ranking
    requires !((a.DoRegister? || a.DoUnregister?) && a.gateway == gateway)
    ensures var s := Step(r, a);
            !Exists(s.infos, gateway, s.now) && gateway in s.ranking && s.ranking[gateway] == r.ranking[gateway]
  {
    hide Address;
  }

  /** The ranking never expires: a gateway whose lease ran out keeps its score until it
      registers or unregisters, and while that score is the lowest, every user without a
      usable route is refused, whatever room the other gateways have. */
  lemma DeadGatewayBlocks(r: Registry, actions: seq<Action>, gateway: string, user: int64, ok: Commands, offer: Offer)
    requires !Exists(r.infos, gateway, r.now) && gateway in r.ranking && Untouched(actions, gateway)
    requires var s := Run(r, actions);
             && (forall other | other in s.ranking && other != gateway :: s.ranking[other] > r.ranking[gateway])
             && Usable(s, user, ok).None? && MayOffer(s, user, ok, offer)
    ensures offer.Refused?
  {
    hide Run, Usable;
    DeadStaysRanked(r, actions, gateway);
  }
}
