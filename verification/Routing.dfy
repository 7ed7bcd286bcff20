/**
 Sandbox routing: the management node gets one route per user network, through the alphabetically
 first router of that network.
 */
module Routing {
  import opened Text

  /** A router mapping of the topology definition: the router is connected to the network. */
  datatype Mapping = Mapping(router: string, network: string)

  /** A router's link to the WAN, and the user networks its other links lead to, link by link. */
  datatype RouterLink = RouterLink(router: string, mac: string, ip: string, networks: seq<string>)

  datatype Topology = Topology(mappings: seq<Mapping>, links: seq<RouterLink>, manMac: string, manIp: string)

  datatype Route = Route(network: string, gateway: string)

  function Occurrences(networks: seq<string>, network: string): nat {
    if networks == [] then 0 else (if networks[0] == network then 1 else 0) + Occurrences(networks[1..], network)
  }

  function Listed(mappings: seq<Mapping>, m: Mapping): nat {
    if mappings == [] then 0 else (if mappings[0] == m then 1 else 0) + Listed(mappings[1..], m)
  }

  /** What a topology instance provides: one WAN link per router, one link per router mapping. */
  ghost predicate WellFormed(t: Topology) {
    && (forall i, j | 0 <= i < j < |t.links| :: t.links[i].router != t.links[j].router)
    && (forall m <- t.mappings :: exists l :: l in t.links && l.router == m.router)
    && (forall l, n | l in t.links :: Occurrences(l.networks, n) == Listed(t.mappings, Mapping(l.router, n)))
  }

  // ---- Which router serves a network ----

  /** Insertion into a list sorted by router name, largest first, before equal ones: a stable sort. */
  function Insert(m: Mapping, sorted: seq<Mapping>): (r: seq<Mapping>)
    ensures forall x :: x in r <==> x == m || x in sorted
  {
    if sorted == [] || AtMost(sorted[0].router, m.router) then [m] + sorted
    else [sorted[0]] + Insert(m, sorted[1..])
  }

  function SortDescending(mappings: seq<Mapping>): (r: seq<Mapping>)
    ensures forall x :: x in r <==> x in mappings
  {
    if mappings == [] then [] else Insert(mappings[0], SortDescending(mappings[1..]))
  }

  predicate Descending(mappings: seq<Mapping>) {
    forall i, j | 0 <= i < j < |mappings| :: AtMost(mappings[j].router, mappings[i].router)
  }

  lemma AtMostIsTransitive(a: string, b: string, c: string)
    requires AtMost(a, b) && AtMost(b, c)
    ensures AtMost(a, c)
  {
    if Less(a, b) && Less(b, c) {
      LessIsTransitive(a, b, c);
    }
  }

  lemma {:induction false} InsertKeepsDescending(m: Mapping, sorted: seq<Mapping>)
    requires Descending(sorted)
    ensures Descending(Insert(m, sorted))
  {
    if sorted == [] {
    } else if AtMost(sorted[0].router, m.router) {
      forall j | 0 <= j < |sorted|
        ensures AtMost(sorted[j].router, m.router)
      {
        if j > 0 {
          AtMostIsTransitive(sorted[j].router, sorted[0].router, m.router);
        }
      }
    } else {
      LessIsTotal(sorted[0].router, m.router);
      InsertKeepsDescending(m, sorted[1..]);
      var rest := Insert(m, sorted[1..]);
      forall j | 0 <= j < |rest|
        ensures AtMost(rest[j].router, sorted[0].router)
      {
        assert rest[j] in rest;
        if rest[j] != m {
          var k :| 0 <= k < |sorted[1..]| && sorted[1..][k] == rest[j];
          assert sorted[k + 1] == rest[j];
        }
      }
    }
  }

  lemma {:induction false} SortIsDescending(mappings: seq<Mapping>)
    ensures Descending(SortDescending(mappings))
  {
    if mappings != [] {
      SortIsDescending(mappings[1..]);
      InsertKeepsDescending(mappings[0], SortDescending(mappings[1..]));
    }
  }

  /** Each mapped network leads to the alphabetically first router mapped to it. */
  ghost predicate FirstRouters(mappings: seq<Mapping>, routerOf: map<string, string>) {
    && (forall m <- mappings :: m.network in routerOf && AtMost(routerOf[m.network], m.router))
    && (forall n <- routerOf :: Mapping(routerOf[n], n) in mappings)
  }

  /** There is only one such choice. */
  lemma {:induction false} FirstRoutersIsUnique(mappings: seq<Mapping>, a: map<string, string>, b: map<string, string>)
    requires FirstRouters(mappings, a) && FirstRouters(mappings, b)
    ensures a == b
  {
    assert forall n <- a :: Mapping(a[n], n) in mappings && Mapping(a[n], n).network in b;
    assert forall n <- b :: Mapping(b[n], n) in mappings && Mapping(b[n], n).network in a;
    forall n <- a
      ensures a[n] == b[n]
    {
      LessIsTotal(a[n], b[n]);
      assert AtMost(a[n], b[n]) && AtMost(b[n], a[n]);
    }
  }

  /** `_get_network_to_router_mapping`: in descending order, later entries overwrite earlier ones. */
  method GetNetworkToRouterMapping(mappings: seq<Mapping>) returns (routerOf: map<string, string>)
    ensures FirstRouters(mappings, routerOf)
  {
    var sorted := SortDescending(mappings);
    SortIsDescending(mappings);
    routerOf := map[];
    for i := 0 to |sorted|
      invariant forall j | 0 <= j < i ::
                  sorted[j].network in routerOf && AtMost(routerOf[sorted[j].network], sorted[j].router)
      invariant forall n <- routerOf :: Mapping(routerOf[n], n) in sorted[..i]
    {
      var m := sorted[i];
      forall n <- routerOf
        ensures Mapping(routerOf[n], n) in sorted[..i + 1]
      {
        assert sorted[..i + 1] == sorted[..i] + [m];
      }
      assert m == Mapping(m.router, m.network) && sorted[..i + 1][i] == m;
      routerOf := routerOf[m.network := m.router];
    }
  }

  // ---- The routes ----

  /** `_get_host_networks_for_routing`. */
  function NetworksServed(networks: seq<string>, router: string, routerOf: map<string, string>): seq<string>
    requires forall i | 0 <= i < |networks| :: networks[i] in routerOf
  {
    if networks == [] then []
    else
      (if router == routerOf[networks[0]] then [networks[0]] else []) + NetworksServed(networks[1..], router, routerOf)
  }

  function RoutesVia(networks: seq<string>, gateway: string): seq<Route> {
    seq(|networks|, i requires 0 <= i < |networks| => Route(networks[i], gateway))
  }

  predicate LinksMapped(links: seq<RouterLink>, routerOf: map<string, string>) {
    forall i, j | 0 <= i < |links| && 0 <= j < |links[i].networks| :: links[i].networks[j] in routerOf
  }

  /** The routes through the routers from link `k` on. */
  function RoutesFrom(links: seq<RouterLink>, k: nat, routerOf: map<string, string>): seq<Route>
    requires k <= |links| && LinksMapped(links, routerOf)
    decreases |links| - k
  {
    if k == |links| then [] else RoutesOf(links[k], routerOf) + RoutesFrom(links, k + 1, routerOf)
  }

  function RoutesOf(link: RouterLink, routerOf: map<string, string>): seq<Route>
    requires forall i | 0 <= i < |link.networks| :: link.networks[i] in routerOf
  {
    RoutesVia(NetworksServed(link.networks, link.router, routerOf), link.ip)
  }

  function AllRoutes(links: seq<RouterLink>, routerOf: map<string, string>): seq<Route>
    requires LinksMapped(links, routerOf)
  {
    RoutesFrom(links, 0, routerOf)
  }

  class Interface {
    const mac: string
    const ip: string
    const defaultGateway: string
    var routes: seq<Route>

    constructor (mac: string, ip: string, defaultGateway: string)
      ensures this.mac == mac && this.ip == ip && this.defaultGateway == defaultGateway && routes == []
    {
      this.mac, this.ip, this.defaultGateway, routes := mac, ip, defaultGateway, [];
    }

    method AddRoute(route: Route)
      modifies this
      ensures routes == old(routes) + [route]
    {
      routes := routes + [route];
    }
  }

  /** The inner loop: one route per network a router serves. */
  method AddRoutes(man: Interface, served: seq<string>, gateway: string)
    modifies man
    ensures man.routes == old(man.routes) + RoutesVia(served, gateway)
  {
    for j := 0 to |served|
      invariant man.routes == old(man.routes) + RoutesVia(served, gateway)[..j]
    {
      man.AddRoute(Route(served[j], gateway));
    }
    assert RoutesVia(served, gateway)[..|served|] == RoutesVia(served, gateway);
  }

  ghost predicate RouterInterface(i: Interface, link: RouterLink, manIp: string)
    reads i
  {
    i.mac == link.mac && i.ip == link.ip && i.defaultGateway == manIp && i.routes == []
  }

  /** The loop over the routers: an interface for each, and its routes on the management node. */
  method VisitRouters(links: seq<RouterLink>, routerOf: map<string, string>, man: Interface)
    returns (routers: seq<Interface>)
    requires LinksMapped(links, routerOf)
    modifies man
    ensures |routers| == |links| && forall k | 0 <= k < |routers| :: RouterInterface(routers[k], links[k], man.ip)
    ensures man.routes == old(man.routes) + AllRoutes(links, routerOf)
  {
    routers := [];
    for i := 0 to |links|
      invariant |routers| == i
      invariant forall k | 0 <= k < i :: routers[k] != man && RouterInterface(routers[k], links[k], man.ip)
      invariant man.routes + RoutesFrom(links, i, routerOf) == old(man.routes) + AllRoutes(links, routerOf)
    {
      var router := new Interface(links[i].mac, links[i].ip, man.ip);
      AddRoutes(man, NetworksServed(links[i].networks, links[i].router, routerOf), router.ip);
      routers := routers + [router];
    }
  }

  /** `_set_sandbox_routing`: the management node's interface and one interface per router. */
  method SetSandboxRouting(t: Topology) returns (man: Interface, routers: seq<Interface>)
    requires WellFormed(t)
    ensures man.mac == t.manMac && man.ip == t.manIp && man.defaultGateway == ""
    ensures |routers| == |t.links| && forall k | 0 <= k < |routers| :: RouterInterface(routers[k], t.links[k], t.manIp)
    ensures exists routerOf ::
              && FirstRouters(t.mappings, routerOf) && LinksMapped(t.links, routerOf)
              && man.routes == AllRoutes(t.links, routerOf)
  {
    var routerOf := GetNetworkToRouterMapping(t.mappings);
    LinksAreMapped(t, routerOf);
    man := new Interface(t.manMac, t.manIp, "");
    routers := VisitRouters(t.links, routerOf, man);
    assert man.routes == AllRoutes(t.links, routerOf);
  }

  lemma {:induction false} OccursIfIn(networks: seq<string>, i: nat)
    requires i < |networks|
    ensures Occurrences(networks, networks[i]) > 0
  {
    if i > 0 {
      OccursIfIn(networks[1..], i - 1);
    }
  }

  lemma {:induction false} ListedIsIn(mappings: seq<Mapping>, m: Mapping)
    ensures Listed(mappings, m) > 0 <==> m in mappings
  {
    if mappings != [] {
      ListedIsIn(mappings[1..], m);
    }
  }

  lemma LinksAreMapped(t: Topology, routerOf: map<string, string>)
    requires WellFormed(t) && FirstRouters(t.mappings, routerOf)
    ensures LinksMapped(t.links, routerOf)
  {
    forall i, j | 0 <= i < |t.links| && 0 <= j < |t.links[i].networks|
      ensures t.links[i].networks[j] in routerOf
    {
      var l, n := t.links[i], t.links[i].networks[j];
      OccursIfIn(l.networks, j);
      assert l in t.links;
      ListedIsIn(t.mappings, Mapping(l.router, n));
      assert Mapping(l.router, n) in t.mappings;
    }
  }

  // ---- One route per network ----

  function RoutesTo(routes: seq<Route>, network: string): seq<Route> {
    if routes == [] then []
    else (if routes[0].network == network then [routes[0]] else []) + RoutesTo(routes[1..], network)
  }

  function Copies(route: Route, n: nat): seq<Route> {
    seq(n, _ => route)
  }

  lemma {:induction false} RoutesToConcat(a: seq<Route>, b: seq<Route>, network: string)
    ensures RoutesTo(a + b, network) == RoutesTo(a, network) + RoutesTo(b, network)
  {
    if a == [] {
      assert a + b == b;
    } else {
      assert (a + b)[1..] == a[1..] + b;
      RoutesToConcat(a[1..], b, network);
    }
  }

  lemma {:induction false} RoutesOfLink(networks: seq<string>, router: string, gateway: string,
                                        routerOf: map<string, string>, network: string)
    requires forall i | 0 <= i < |networks| :: networks[i] in routerOf
    ensures RoutesTo(RoutesVia(NetworksServed(networks, router, routerOf), gateway), network)
         == Copies(Route(network, gateway),
                   if network in routerOf && routerOf[network] == router then Occurrences(networks, network) else 0)
  {
    if networks != [] {
      RoutesOfLink(networks[1..], router, gateway, routerOf, network);
      var rest := NetworksServed(networks[1..], router, routerOf);
      if router == routerOf[networks[0]] {
        assert NetworksServed(networks, router, routerOf) == [networks[0]] + rest;
        assert RoutesVia([networks[0]] + rest, gateway) == [Route(networks[0], gateway)] + RoutesVia(rest, gateway);
      } else {
        assert NetworksServed(networks, router, routerOf) == rest;
      }
    }
  }

  lemma {:induction false} RoutesOfOtherLinks(links: seq<RouterLink>, k: nat, routerOf: map<string, string>,
                                              network: string)
    requires LinksMapped(links, routerOf) && k <= |links|
    requires network in routerOf ==> forall i | k <= i < |links| :: links[i].router != routerOf[network]
    ensures RoutesTo(RoutesFrom(links, k, routerOf), network) == []
    decreases |links| - k
  {
    if k < |links| {
      var l := links[k];
      RoutesOfLink(l.networks, l.router, l.ip, routerOf, network);
      RoutesOfOtherLinks(links, k + 1, routerOf, network);
      RoutesToConcat(RoutesOf(l, routerOf), RoutesFrom(links, k + 1, routerOf), network);
    }
  }

  lemma {:induction false} RoutesOfServingLink(links: seq<RouterLink>, k: nat, i: nat, routerOf: map<string, string>,
                                               network: string)
    requires LinksMapped(links, routerOf) && k <= i < |links|
    requires forall j, k | 0 <= j < k < |links| :: links[j].router != links[k].router
    requires network in routerOf && links[i].router == routerOf[network]
    ensures RoutesTo(RoutesFrom(links, k, routerOf), network)
         == Copies(Route(network, links[i].ip), Occurrences(links[i].networks, network))
    decreases i - k
  {
    var l := links[k];
    RoutesOfLink(l.networks, l.router, l.ip, routerOf, network);
    RoutesToConcat(RoutesOf(l, routerOf), RoutesFrom(links, k + 1, routerOf), network);
    if i == k {
      RoutesOfOtherLinks(links, k + 1, routerOf, network);
    } else {
      RoutesOfServingLink(links, k + 1, i, routerOf, network);
    }
  }

  /**
   For any topology: a mapped network gets as many routes as its first router lists it, all of them
   through that router's WAN address; a network without a mapping gets none.
   */
  lemma {:induction false} RoutesPerNetwork(t: Topology, routerOf: map<string, string>, network: string)
    requires WellFormed(t) && FirstRouters(t.mappings, routerOf) && LinksMapped(t.links, routerOf)
    ensures network !in routerOf ==> RoutesTo(AllRoutes(t.links, routerOf), network) == []
    ensures network in routerOf ==>
              exists l :: l in t.links && l.router == routerOf[network]
                          && RoutesTo(AllRoutes(t.links, routerOf), network)
                             == Copies(Route(network, l.ip), Listed(t.mappings, Mapping(routerOf[network], network)))
  {
    if network in routerOf {
      var m := Mapping(routerOf[network], network);
      assert m in t.mappings;
      var l :| l in t.links && l.router == m.router;
      var i: nat :| i < |t.links| && t.links[i] == l;
      RoutesOfServingLink(t.links, 0, i, routerOf, network);
    } else {
      RoutesOfOtherLinks(t.links, 0, routerOf, network);
    }
  }

  /** There is exactly one route to a mapped network when, and only when, its first router is mapped to it once. */
  lemma {:induction false} ExactlyOneRouteIff(t: Topology, routerOf: map<string, string>, network: string)
    requires WellFormed(t) && FirstRouters(t.mappings, routerOf) && LinksMapped(t.links, routerOf)
    requires network in routerOf
    ensures |RoutesTo(AllRoutes(t.links, routerOf), network)| == 1
            <==> Listed(t.mappings, Mapping(routerOf[network], network)) == 1
  {
    RoutesPerNetwork(t, routerOf, network);
  }
}
