/**
 Cluster DNS: one table of hostnames merged from every node's heartbeat, and the
 lookup of the most specific name a query falls under.
 */
module ClusterDns {
  import opened Text

  datatype Route = Route(useHost: bool, host: string, tunneledHost: string)

  datatype Heartbeat = Heartbeat(ip: string, hostnames: seq<string>, tunnels: seq<Route>)

  /** What the cluster knows about a hostname: tunneled names point at the load balancers. */
  datatype Entry = Entry(ips: seq<string>, tunneled: bool)

  type Table = map<string, Entry>

  const NONE: Entry := Entry([], false)

  function HostOnly(host: string): string {
    Split(host, ':')[0]
  }

  function CleanIp(ip: string): string {
    Split(ip, '/')[0]
  }

  predicate UsableHost(host: string) {
    host != "" && ',' !in host && ' ' !in host
  }

  // ----- sorted, duplicate-free address lists

  function WithIp(ips: seq<string>, ip: string): seq<string> {
    if CleanIp(ip) == "" then ips else Insert(ips, CleanIp(ip))
  }

  function WithIps(ips: seq<string>, more: seq<string>): seq<string>
    decreases |more|
  {
    if more == [] then ips else WithIp(WithIps(ips, more[..|more| - 1]), more[|more| - 1])
  }

  /** The slice insertion of the program: find the place, then make room. */
  method AppendUniqueIP(ips: seq<string>, raw: string) returns (r: seq<string>)
    ensures r == WithIp(ips, raw)
  {
    var ip := CleanIp(raw);
    if ip == "" {
      return ips;
    }
    var i := 0;
    while i < |ips| && Less(ips[i], ip)
      invariant i <= |ips|
      invariant Insert(ips, ip) == ips[..i] + Insert(ips[i..], ip)
    {
      assert ips[i..][0] == ips[i] && ips[i..][1..] == ips[i + 1..];
      assert ips[..i + 1] == ips[..i] + [ips[i]];
      i := i + 1;
    }
    assert i < |ips| ==> ips[i..][0] == ips[i];
    assert ips == ips[..i] + ips[i..];
    if i < |ips| && ips[i] == ip {
      return ips;
    }
    r := ips[..i] + [ip] + ips[i..];
  }

  predicate Offered(more: seq<string>, ip: string) {
    ip != "" && exists j :: 0 <= j < |more| && CleanIp(more[j]) == ip
  }

  lemma {:induction false} WithIpsSpec(ips: seq<string>, more: seq<string>)
    requires Ascending(ips)
    ensures Ascending(WithIps(ips, more))
    ensures forall ip :: ip in WithIps(ips, more) <==> ip in ips || Offered(more, ip)
    decreases |more|
  {
    if more != [] {
      var n := |more| - 1;
      WithIpsSpec(ips, more[..n]);
      var before := WithIps(ips, more[..n]);
      var added := CleanIp(more[n]);
      if added != "" {
        InsertAscending(before, added);
      }
      forall ip ensures ip in WithIps(ips, more) <==> ip in ips || Offered(more, ip) {
        InsertMembers(before, added, ip);
        OfferedSnoc(more, ip);
      }
    }
  }

  lemma OfferedSnoc(more: seq<string>, ip: string)
    requires more != []
    ensures Offered(more, ip) <==> Offered(more[..|more| - 1], ip) || (ip != "" && ip == CleanIp(more[|more| - 1]))
  {
    var n := |more| - 1;
    if Offered(more[..n], ip) {
      var j :| 0 <= j < n && CleanIp(more[..n][j]) == ip;
      assert more[j] == more[..n][j];
    }
    if Offered(more, ip) && ip != CleanIp(more[n]) {
      var j :| 0 <= j < |more| && CleanIp(more[j]) == ip;
      assert more[..n][j] == more[j];
    }
  }

  // ----- adding one advertisement

  datatype Advert = Advert(host: string, tunneled: bool, ips: seq<string>)

  function EntryFor(t: Table, host: string): Entry {
    if host in t then t[host] else NONE
  }

  function Added(t: Table, a: Advert): Table {
    var host := HostOnly(a.host);
    var known := EntryFor(t, host);
    if !UsableHost(host) || (!a.tunneled && known.tunneled) then t
    else
      var entry := if a.tunneled && !known.tunneled then Entry([], true) else known;
      t[host := entry.(ips := WithIps(entry.ips, a.ips))]
  }

  function AddedAll(t: Table, adverts: seq<Advert>): Table
    decreases |adverts|
  {
    if adverts == [] then t else Added(AddedAll(t, adverts[..|adverts| - 1]), adverts[|adverts| - 1])
  }

  /** Some advertisement names this host, as tunneled or as plain. */
  ghost predicate Named(adverts: seq<Advert>, host: string, tunneled: bool) {
    exists i :: 0 <= i < |adverts| && Names(adverts[i], host, tunneled)
  }

  predicate Names(a: Advert, host: string, tunneled: bool) {
    a.tunneled == tunneled && HostOnly(a.host) == host && UsableHost(host)
  }

  /** Some advertisement of this kind offers this address for this host. */
  ghost predicate Offers(adverts: seq<Advert>, host: string, tunneled: bool, ip: string) {
    exists i :: 0 <= i < |adverts| && Names(adverts[i], host, tunneled) && Offered(adverts[i].ips, ip)
  }

  /** What a table says about one host is what the advertisements say: tunneled ones override plain
      ones, and the addresses are those of the kind that holds, ascending and without repeats. */
  ghost predicate HostOk(t: Table, adverts: seq<Advert>, host: string) {
    && (host in t <==> Named(adverts, host, false) || Named(adverts, host, true))
    && (host in t ==>
          && t[host].tunneled == Named(adverts, host, true)
          && Ascending(t[host].ips)
          && forall ip :: ip in t[host].ips <==> Offers(adverts, host, t[host].tunneled, ip))
  }

  ghost predicate Merged(t: Table, adverts: seq<Advert>) {
    forall host :: HostOk(t, adverts, host)
  }

  lemma NamedSnoc(adverts: seq<Advert>, a: Advert, host: string, tunneled: bool)
    ensures Named(adverts + [a], host, tunneled) <==> Named(adverts, host, tunneled) || Names(a, host, tunneled)
  {
    var all := adverts + [a];
    if Named(adverts, host, tunneled) {
      var i :| 0 <= i < |adverts| && Names(adverts[i], host, tunneled);
      assert Names(all[i], host, tunneled);
    }
    if Names(a, host, tunneled) {
      assert Names(all[|adverts|], host, tunneled);
    }
    if Named(all, host, tunneled) && !Names(a, host, tunneled) {
      var i :| 0 <= i < |all| && Names(all[i], host, tunneled);
      assert Names(adverts[i], host, tunneled);
    }
  }

  lemma OffersSnoc(adverts: seq<Advert>, a: Advert, host: string, tunneled: bool, ip: string)
    ensures Offers(adverts + [a], host, tunneled, ip) <==>
            Offers(adverts, host, tunneled, ip) || (Names(a, host, tunneled) && Offered(a.ips, ip))
  {
    var all := adverts + [a];
    if Offers(adverts, host, tunneled, ip) {
      var i :| 0 <= i < |adverts| && Names(adverts[i], host, tunneled) && Offered(adverts[i].ips, ip);
      assert Names(all[i], host, tunneled) && Offered(all[i].ips, ip);
    }
    if Names(a, host, tunneled) && Offered(a.ips, ip) {
      assert Names(all[|adverts|], host, tunneled) && Offered(all[|adverts|].ips, ip);
    }
    if Offers(all, host, tunneled, ip) && !(Names(a, host, tunneled) && Offered(a.ips, ip)) {
      var i :| 0 <= i < |all| && Names(all[i], host, tunneled) && Offered(all[i].ips, ip);
      assert Names(adverts[i], host, tunneled) && Offered(adverts[i].ips, ip);
    }
  }

  lemma OffersMeansNamed(adverts: seq<Advert>, host: string, tunneled: bool, ip: string)
    requires Offers(adverts, host, tunneled, ip)
    ensures Named(adverts, host, tunneled)
  {
    var i :| 0 <= i < |adverts| && Names(adverts[i], host, tunneled) && Offered(adverts[i].ips, ip);
  }

  /** A host the advertisement does not change. */
  lemma UntouchedHost(t: Table, adverts: seq<Advert>, a: Advert, host: string)
    requires HostOk(t, adverts, host)
    requires (host in Added(t, a) <==> host in t) && (host in t ==> Added(t, a)[host] == t[host])
    requires !Names(a, host, true) && (Names(a, host, false) ==> host in t && t[host].tunneled)
    ensures HostOk(Added(t, a), adverts + [a], host)
  {
    NamedSnoc(adverts, a, host, true);
    NamedSnoc(adverts, a, host, false);
    if host in t {
      forall ip ensures ip in t[host].ips <==> Offers(adverts + [a], host, t[host].tunneled, ip) {
        OffersSnoc(adverts, a, host, t[host].tunneled, ip);
      }
    }
  }

  /** The host the advertisement is about. */
  lemma TouchedHost(t: Table, adverts: seq<Advert>, a: Advert, host: string)
    requires HostOk(t, adverts, host) && host == HostOnly(a.host) && UsableHost(host)
    requires a.tunneled || !EntryFor(t, host).tunneled
    ensures HostOk(Added(t, a), adverts + [a], host)
  {
    var known := EntryFor(t, host);
    var kept := if a.tunneled && !known.tunneled then [] else known.ips;
    NamedSnoc(adverts, a, host, true);
    NamedSnoc(adverts, a, host, false);
    WithIpsSpec(kept, a.ips);
    var t' := Added(t, a);
    assert t'[host] == Entry(WithIps(kept, a.ips), a.tunneled);
    forall ip ensures ip in t'[host].ips <==> Offers(adverts + [a], host, a.tunneled, ip) {
      OffersSnoc(adverts, a, host, a.tunneled, ip);
      if Offers(adverts, host, a.tunneled, ip) {
        OffersMeansNamed(adverts, host, a.tunneled, ip);
      }
    }
  }

  lemma AddedMerged(t: Table, adverts: seq<Advert>, a: Advert)
    requires Merged(t, adverts)
    ensures Merged(Added(t, a), adverts + [a])
  {
    forall host ensures HostOk(Added(t, a), adverts + [a], host) {
      assert HostOk(t, adverts, host);
      if host == HostOnly(a.host) && UsableHost(host) && (a.tunneled || !EntryFor(t, host).tunneled) {
        TouchedHost(t, adverts, a, host);
      } else {
        UntouchedHost(t, adverts, a, host);
      }
    }
  }

  lemma {:induction false} AddedAllMerged(adverts: seq<Advert>)
    ensures Merged(AddedAll(map[], adverts), adverts)
    decreases |adverts|
  {
    if adverts != [] {
      var n := |adverts| - 1;
      AddedAllMerged(adverts[..n]);
      AddedMerged(AddedAll(map[], adverts[..n]), adverts[..n], adverts[n]);
      assert adverts[..n] + [adverts[n]] == adverts;
    }
  }

  // ----- all heartbeats

  function HostAdverts(hosts: seq<string>, ip: string): seq<Advert> {
    if hosts == [] then [] else HostAdverts(hosts[..|hosts| - 1], ip) + [Advert(hosts[|hosts| - 1], false, [ip])]
  }

  /** A tunneled route points at the load balancers; with none yet, at the node that offers it. */
  function RouteAdverts(r: Route, ips: seq<string>): seq<Advert> {
    if !r.useHost then []
    else [Advert(r.host, true, ips)] + if r.tunneledHost != "" then [Advert(r.tunneledHost, true, ips)] else []
  }

  function RoutesAdverts(routes: seq<Route>, ips: seq<string>): seq<Advert> {
    if routes == [] then [] else RoutesAdverts(routes[..|routes| - 1], ips) + RouteAdverts(routes[|routes| - 1], ips)
  }

  function HeartbeatAdverts(hb: Heartbeat, lbIPs: seq<string>): seq<Advert> {
    HostAdverts(hb.hostnames, hb.ip) + RoutesAdverts(hb.tunnels, if lbIPs == [] then [hb.ip] else lbIPs)
  }

  function Adverts(hbs: seq<Heartbeat>, lbIPs: seq<string>): seq<Advert> {
    if hbs == [] then [] else Adverts(hbs[..|hbs| - 1], lbIPs) + HeartbeatAdverts(hbs[|hbs| - 1], lbIPs)
  }

  lemma {:induction false} AddedAllAppend(t: Table, a: seq<Advert>, b: seq<Advert>)
    ensures AddedAll(t, a + b) == AddedAll(AddedAll(t, a), b)
    decreases |b|
  {
    if b == [] {
      assert a + b == a;
    } else {
      var n := |b| - 1;
      assert (a + b)[..|a + b| - 1] == a + b[..n];
      AddedAllAppend(t, a, b[..n]);
    }
  }

  method AddAdvert(t: Table, a: Advert) returns (r: Table)
    ensures r == Added(t, a)
  {
    var host := HostOnly(a.host);
    if !UsableHost(host) {
      return t;
    }
    var entry := EntryFor(t, host);
    if a.tunneled && !entry.tunneled {
      entry := Entry([], true);
    } else if !a.tunneled && entry.tunneled {
      return t;
    }
    var ips := AppendUniqueIPs(entry.ips, a.ips);
    r := t[host := Entry(ips, entry.tunneled)];
  }

  method AppendUniqueIPs(ips: seq<string>, more: seq<string>) returns (r: seq<string>)
    ensures r == WithIps(ips, more)
  {
    r := ips;
    var i := 0;
    while i < |more|
      invariant i <= |more| && r == WithIps(ips, more[..i])
    {
      assert more[..i + 1][..i] == more[..i];
      r := AppendUniqueIP(r, more[i]);
      i := i + 1;
    }
    assert more[..|more|] == more;
  }

  method AddHeartbeat(t: Table, hb: Heartbeat, lbIPs: seq<string>) returns (r: Table)
    ensures r == AddedAll(t, HeartbeatAdverts(hb, lbIPs))
  {
    var ips := if lbIPs == [] then [hb.ip] else lbIPs;
    r := AddHostnames(t, hb.hostnames, hb.ip);
    r := AddRoutes(r, hb.tunnels, ips);
    AddedAllAppend(t, HostAdverts(hb.hostnames, hb.ip), RoutesAdverts(hb.tunnels, ips));
  }

  method AddHostnames(t: Table, hosts: seq<string>, ip: string) returns (r: Table)
    ensures r == AddedAll(t, HostAdverts(hosts, ip))
  {
    r := t;
    var i := 0;
    while i < |hosts|
      invariant i <= |hosts| && r == AddedAll(t, HostAdverts(hosts[..i], ip))
    {
      var a := Advert(hosts[i], false, [ip]);
      assert hosts[..i + 1][..i] == hosts[..i];
      AddedAllAppend(t, HostAdverts(hosts[..i], ip), [a]);
      OneAdvert(r, a);
      r := AddAdvert(r, a);
      i := i + 1;
    }
    assert hosts[..|hosts|] == hosts;
  }

  method AddRoutes(t: Table, routes: seq<Route>, ips: seq<string>) returns (r: Table)
    ensures r == AddedAll(t, RoutesAdverts(routes, ips))
  {
    r := t;
    var i := 0;
    while i < |routes|
      invariant i <= |routes| && r == AddedAll(t, RoutesAdverts(routes[..i], ips))
    {
      assert routes[..i + 1][..i] == routes[..i];
      AddedAllAppend(t, RoutesAdverts(routes[..i], ips), RouteAdverts(routes[i], ips));
      r := AddRoute(r, routes[i], ips);
      i := i + 1;
    }
    assert routes[..|routes|] == routes;
  }

  lemma OneAdvert(t: Table, a: Advert)
    ensures AddedAll(t, [a]) == Added(t, a)
  {
    assert [a][..0] == [];
  }

  method AddRoute(t: Table, route: Route, ips: seq<string>) returns (r: Table)
    ensures r == AddedAll(t, RouteAdverts(route, ips))
  {
    r := t;
    if route.useHost {
      OneAdvert(t, Advert(route.host, true, ips));
      r := AddAdvert(r, Advert(route.host, true, ips));
      if route.tunneledHost != "" {
        OneAdvert(r, Advert(route.tunneledHost, true, ips));
        AddedAllAppend(t, [Advert(route.host, true, ips)], [Advert(route.tunneledHost, true, ips)]);
        r := AddAdvert(r, Advert(route.tunneledHost, true, ips));
      } else {
        assert RouteAdverts(route, ips) == [Advert(route.host, true, ips)];
      }
    }
  }

  // ----- the same, in terms of the heartbeats' fields

  /** A heartbeat gives this text as a plain hostname, or one of its routes does as a tunneled one. */
  ghost predicate Says(hb: Heartbeat, text: string, tunneled: bool) {
    if tunneled then exists r :: r in hb.tunnels && RouteSays(r, text) else text in hb.hostnames
  }

  predicate RouteSays(r: Route, text: string) {
    r.useHost && (text == r.host || (text == r.tunneledHost && text != ""))
  }

  /** Some heartbeat gives the host, perhaps with a port behind it. */
  ghost predicate Told(hbs: seq<Heartbeat>, host: string, tunneled: bool) {
    exists hb, text :: hb in hbs && Says(hb, text, tunneled) && Before(host, text, ':')
  }

  /** The address, perhaps with a mask behind it, is that of a heartbeat that gives the host; a tunneled
      host has the load balancers' addresses instead, where there are any. */
  ghost predicate IpTold(hbs: seq<Heartbeat>, lbIPs: seq<string>, host: string, tunneled: bool, ip: string) {
    if tunneled && lbIPs != [] then exists text :: text in lbIPs && Before(ip, text, '/')
    else exists hb, text :: hb in hbs && Says(hb, text, tunneled) && Before(host, text, ':') && Before(ip, hb.ip, '/')
  }

  lemma {:induction false} HostAdvertsAre(hosts: seq<string>, ip: string, a: Advert)
    ensures a in HostAdverts(hosts, ip) <==> !a.tunneled && a.ips == [ip] && a.host in hosts
    decreases |hosts|
  {
    if hosts != [] {
      var n := |hosts| - 1;
      HostAdvertsAre(hosts[..n], ip, a);
      assert hosts == hosts[..n] + [hosts[n]];
    }
  }

  lemma {:induction false} RoutesAdvertsAre(routes: seq<Route>, ips: seq<string>, a: Advert)
    ensures a in RoutesAdverts(routes, ips) <==>
            a.tunneled && a.ips == ips && exists r :: r in routes && RouteSays(r, a.host)
    decreases |routes|
  {
    if routes != [] {
      var n := |routes| - 1;
      RoutesAdvertsAre(routes[..n], ips, a);
      RouteAdvertsAre(routes[n], ips, a);
      SayingSnoc(routes, a.host);
    }
  }

  lemma RouteAdvertsAre(r: Route, ips: seq<string>, a: Advert)
    ensures a in RouteAdverts(r, ips) <==> a.tunneled && a.ips == ips && RouteSays(r, a.host)
  {
  }

  lemma SayingSnoc(routes: seq<Route>, text: string)
    requires routes != []
    ensures (exists r :: r in routes && RouteSays(r, text)) <==>
            (exists r :: r in routes[..|routes| - 1] && RouteSays(r, text)) || RouteSays(routes[|routes| - 1], text)
  {
    assert routes == routes[..|routes| - 1] + [routes[|routes| - 1]];
  }

  lemma HeartbeatAdvertsAre(hb: Heartbeat, lbIPs: seq<string>, a: Advert)
    ensures a in HeartbeatAdverts(hb, lbIPs) <==>
            Says(hb, a.host, a.tunneled) && a.ips == if a.tunneled && lbIPs != [] then lbIPs else [hb.ip]
  {
    HostAdvertsAre(hb.hostnames, hb.ip, a);
    RoutesAdvertsAre(hb.tunnels, if lbIPs == [] then [hb.ip] else lbIPs, a);
  }

  /** Where an advertisement of a heartbeat comes from, and what it carries. */
  lemma AdvertSays(hbs: seq<Heartbeat>, lbIPs: seq<string>, a: Advert) returns (hb: Heartbeat)
    requires a in Adverts(hbs, lbIPs)
    ensures hb in hbs && Says(hb, a.host, a.tunneled)
    ensures a.ips == if a.tunneled && lbIPs != [] then lbIPs else [hb.ip]
  {
    AdvertsOf(hbs, lbIPs, a);
    hb :| hb in hbs && a in HeartbeatAdverts(hb, lbIPs);
    HeartbeatAdvertsAre(hb, lbIPs, a);
  }

  lemma SaysAdvert(hbs: seq<Heartbeat>, lbIPs: seq<string>, hb: Heartbeat, text: string, tunneled: bool) returns (i: nat)
    requires hb in hbs && Says(hb, text, tunneled)
    ensures var ips := if tunneled && lbIPs != [] then lbIPs else [hb.ip];
            i < |Adverts(hbs, lbIPs)| && Adverts(hbs, lbIPs)[i] == Advert(text, tunneled, ips)
  {
    var a := Advert(text, tunneled, if tunneled && lbIPs != [] then lbIPs else [hb.ip]);
    HeartbeatAdvertsAre(hb, lbIPs, a);
    AdvertsOf(hbs, lbIPs, a);
    i :| 0 <= i < |Adverts(hbs, lbIPs)| && Adverts(hbs, lbIPs)[i] == a;
  }

  lemma NamedIsTold(hbs: seq<Heartbeat>, lbIPs: seq<string>, host: string, tunneled: bool)
    ensures Named(Adverts(hbs, lbIPs), host, tunneled) <==> UsableHost(host) && Told(hbs, host, tunneled)
  {
    var adverts := Adverts(hbs, lbIPs);
    if Named(adverts, host, tunneled) {
      var i :| 0 <= i < |adverts| && Names(adverts[i], host, tunneled);
      var hb := AdvertSays(hbs, lbIPs, adverts[i]);
      FirstPiece(host, adverts[i].host, ':');
    }
    if UsableHost(host) && Told(hbs, host, tunneled) {
      var hb, text :| hb in hbs && Says(hb, text, tunneled) && Before(host, text, ':');
      FirstPiece(host, text, ':');
      var i := SaysAdvert(hbs, lbIPs, hb, text, tunneled);
      assert Names(adverts[i], host, tunneled);
    }
  }

  lemma OfferedIsBefore(ips: seq<string>, ip: string)
    ensures Offered(ips, ip) <==> ip != "" && exists text :: text in ips && Before(ip, text, '/')
  {
    forall text ensures CleanIp(text) == ip <==> Before(ip, text, '/') {
      FirstPiece(ip, text, '/');
    }
    if Offered(ips, ip) {
      var j :| 0 <= j < |ips| && CleanIp(ips[j]) == ip;
      assert ips[j] in ips;
    }
  }

  lemma OffersIsTold(hbs: seq<Heartbeat>, lbIPs: seq<string>, host: string, tunneled: bool, ip: string)
    requires Named(Adverts(hbs, lbIPs), host, tunneled)
    ensures Offers(Adverts(hbs, lbIPs), host, tunneled, ip) <==> ip != "" && IpTold(hbs, lbIPs, host, tunneled, ip)
  {
    var adverts := Adverts(hbs, lbIPs);
    if Offers(adverts, host, tunneled, ip) {
      var i :| 0 <= i < |adverts| && Names(adverts[i], host, tunneled) && Offered(adverts[i].ips, ip);
      var hb := AdvertSays(hbs, lbIPs, adverts[i]);
      FirstPiece(host, adverts[i].host, ':');
      OfferedIsBefore(adverts[i].ips, ip);
    }
    if ip != "" && IpTold(hbs, lbIPs, host, tunneled, ip) {
      ToldIsOffered(hbs, lbIPs, host, tunneled, ip);
    }
  }

  lemma ToldIsOffered(hbs: seq<Heartbeat>, lbIPs: seq<string>, host: string, tunneled: bool, ip: string)
    requires Named(Adverts(hbs, lbIPs), host, tunneled) && ip != "" && IpTold(hbs, lbIPs, host, tunneled, ip)
    ensures Offers(Adverts(hbs, lbIPs), host, tunneled, ip)
  {
    var adverts := Adverts(hbs, lbIPs);
    if tunneled && lbIPs != [] {
      var i :| 0 <= i < |adverts| && Names(adverts[i], host, tunneled);
      var hb := AdvertSays(hbs, lbIPs, adverts[i]);
      OfferedIsBefore(adverts[i].ips, ip);
    } else {
      NamedIsTold(hbs, lbIPs, host, tunneled);
      var hb, text :| hb in hbs && Says(hb, text, tunneled) && Before(host, text, ':') && Before(ip, hb.ip, '/');
      FirstPiece(host, text, ':');
      var i := SaysAdvert(hbs, lbIPs, hb, text, tunneled);
      OfferedIsBefore([hb.ip], ip);
      assert Names(adverts[i], host, tunneled) && Offered(adverts[i].ips, ip);
    }
  }

  /** What a merged table says of one host, by the heartbeats alone. */
  ghost predicate HostMeans(t: Table, hbs: seq<Heartbeat>, lbIPs: seq<string>, host: string) {
    && (host in t <==> host != "" && ',' !in host && ' ' !in host && (Told(hbs, host, false) || Told(hbs, host, true)))
    && (host in t ==>
          && t[host].tunneled == Told(hbs, host, true)
          && (forall i, j | 0 <= i < j < |t[host].ips| :: Less(t[host].ips[i], t[host].ips[j]))
          && forall ip :: ip in t[host].ips <==> ip != "" && IpTold(hbs, lbIPs, host, t[host].tunneled, ip))
  }

  lemma MergedMeans(t: Table, hbs: seq<Heartbeat>, lbIPs: seq<string>, host: string)
    requires Merged(t, Adverts(hbs, lbIPs))
    ensures HostMeans(t, hbs, lbIPs, host)
  {
    assert HostOk(t, Adverts(hbs, lbIPs), host);
    NamedIsTold(hbs, lbIPs, host, false);
    NamedIsTold(hbs, lbIPs, host, true);
    if host in t {
      forall ip ensures ip in t[host].ips <==> ip != "" && IpTold(hbs, lbIPs, host, t[host].tunneled, ip) {
        OffersIsTold(hbs, lbIPs, host, t[host].tunneled, ip);
      }
    }
  }

  /** The merged table of all heartbeats. */
  method BuildClusterDNS(hbs: seq<Heartbeat>, lbIPs: seq<string>) returns (t: Table)
    ensures forall host :: HostMeans(t, hbs, lbIPs, host)
    ensures Merged(t, Adverts(hbs, lbIPs))
  {
    t := map[];
    var i := 0;
    while i < |hbs|
      invariant i <= |hbs| && t == AddedAll(map[], Adverts(hbs[..i], lbIPs))
    {
      assert hbs[..i + 1][..i] == hbs[..i];
      AddedAllAppend(map[], Adverts(hbs[..i], lbIPs), HeartbeatAdverts(hbs[i], lbIPs));
      t := AddHeartbeat(t, hbs[i], lbIPs);
      i := i + 1;
    }
    assert hbs[..|hbs|] == hbs;
    AddedAllMerged(Adverts(hbs, lbIPs));
    forall host ensures HostMeans(t, hbs, lbIPs, host) {
      MergedMeans(t, hbs, lbIPs, host);
    }
  }

  // ----- order does not show

  ghost predicate SameAdverts(a: seq<Advert>, b: seq<Advert>) {
    forall x :: x in a <==> x in b
  }

  lemma NamedBySame(a: seq<Advert>, b: seq<Advert>, host: string, tunneled: bool)
    requires SameAdverts(a, b) && Named(a, host, tunneled)
    ensures Named(b, host, tunneled)
  {
    var i :| 0 <= i < |a| && Names(a[i], host, tunneled);
    assert a[i] in a && a[i] in b;
    var j :| 0 <= j < |b| && b[j] == a[i];
  }

  lemma OffersBySame(a: seq<Advert>, b: seq<Advert>, host: string, tunneled: bool, ip: string)
    requires SameAdverts(a, b) && Offers(a, host, tunneled, ip)
    ensures Offers(b, host, tunneled, ip)
  {
    var i :| 0 <= i < |a| && Names(a[i], host, tunneled) && Offered(a[i].ips, ip);
    assert a[i] in a && a[i] in b;
    var j :| 0 <= j < |b| && b[j] == a[i];
  }

  lemma SameHost(t: Table, u: Table, a: seq<Advert>, b: seq<Advert>, host: string)
    requires SameAdverts(a, b) && HostOk(t, a, host) && HostOk(u, b, host)
    ensures host in t <==> host in u
    ensures host in t ==> t[host] == u[host]
  {
    forall k ensures Named(a, host, k) <==> Named(b, host, k) {
      if Named(a, host, k) { NamedBySame(a, b, host, k); }
      if Named(b, host, k) { NamedBySame(b, a, host, k); }
    }
    if host in t {
      forall ip ensures ip in t[host].ips <==> ip in u[host].ips {
        if ip in t[host].ips { OffersBySame(a, b, host, t[host].tunneled, ip); }
        if ip in u[host].ips { OffersBySame(b, a, host, u[host].tunneled, ip); }
      }
      AscendingUnique(t[host].ips, u[host].ips);
    }
  }

  lemma {:induction false} AdvertsOf(hbs: seq<Heartbeat>, lbIPs: seq<string>, a: Advert)
    ensures a in Adverts(hbs, lbIPs) <==> exists hb :: hb in hbs && a in HeartbeatAdverts(hb, lbIPs)
    decreases |hbs|
  {
    if hbs != [] {
      var n := |hbs| - 1;
      AdvertsOf(hbs[..n], lbIPs, a);
      assert hbs == hbs[..n] + [hbs[n]];
      forall hb | hb in hbs && a in HeartbeatAdverts(hb, lbIPs)
        ensures a in Adverts(hbs, lbIPs)
      {
        assert hb in hbs[..n] || hb == hbs[n];
      }
    }
  }

  /** Heartbeats in any other order, even with repeats, merge into the very same table. */
  lemma OrderDoesNotShow(t: Table, u: Table, hbs: seq<Heartbeat>, other: seq<Heartbeat>, lbIPs: seq<string>)
    requires Merged(t, Adverts(hbs, lbIPs)) && Merged(u, Adverts(other, lbIPs))
    requires forall hb :: hb in hbs <==> hb in other
    ensures t == u
  {
    var a, b := Adverts(hbs, lbIPs), Adverts(other, lbIPs);
    forall x ensures x in a <==> x in b {
      AdvertsOf(hbs, lbIPs, x);
      AdvertsOf(other, lbIPs, x);
    }
    forall host ensures (host in t <==> host in u) && (host in t ==> t[host] == u[host]) {
      assert HostOk(t, a, host) && HostOk(u, b, host);
      SameHost(t, u, a, b, host);
    }
  }

  // ----- lookup

  function Tail(s: string, n: nat): string
    requires n <= |s|
  {
    s[|s| - n..]
  }

  predicate HasSuffix(s: string, suffix: string) {
    |suffix| <= |s| && Tail(s, |suffix|) == suffix
  }

  /** The query names the host exactly or ends with it on a label boundary, whatever the letter case. */
  predicate MatchesDomain(qName: string, host: string) {
    Lower(qName) == Lower(host) + "." || HasSuffix(Lower(qName), "." + Lower(host) + ".")
  }

  lemma DottedLabels(h: string)
    ensures Split(h + ".", '.') == Split(h, '.') + [""]
  {
    SplitAppend(h, '.', "");
    assert h + ['.'] + "" == h + ".";
  }

  lemma BehindLabels(q: string, front: string, h: string)
    requires q == front + ['.'] + (h + ".")
    ensures Split(q, '.') == Split(front, '.') + (Split(h, '.') + [""])
  {
    SplitAppend(front, '.', h + ".");
    DottedLabels(h);
  }

  lemma MatchEndsLabels(q: string, h: string)
    requires q == h + "." || HasSuffix(q, "." + h + ".")
    ensures var qs, hs := Split(q, '.'), Split(h, '.') + [""];
            |hs| <= |qs| && qs[|qs| - |hs|..] == hs
  {
    if q == h + "." {
      DottedLabels(h);
    } else {
      var front := q[..|q| - |"." + h + "."|];
      assert q == front + ['.'] + (h + ".");
      BehindLabels(q, front, h);
    }
  }

  lemma SuffixOf(q: string, front: string, mid: string, end: string)
    requires q == front + mid + end
    ensures HasSuffix(q, mid + end)
  {
    assert Tail(q, |mid + end|) == mid + end;
  }

  lemma JoinedTail(front: seq<string>, hs: seq<string>)
    requires front != [] && hs != []
    ensures HasSuffix(Unsplit(front + hs, '.'), ['.'] + Unsplit(hs, '.'))
  {
    UnsplitAppend(front, hs, '.');
    SuffixOf(Unsplit(front + hs, '.'), Unsplit(front, '.'), ['.'], Unsplit(hs, '.'));
  }

  lemma LabelsOfDotted(h: string)
    ensures Unsplit(Split(h, '.') + [""], '.') == h + "."
  {
    UnsplitSplit(h, '.');
    UnsplitAppend(Split(h, '.'), [""], '.');
  }

  lemma LabelsEndMeansMatch(q: string, h: string)
    requires var qs, hs := Split(q, '.'), Split(h, '.') + [""];
             |hs| <= |qs| && qs[|qs| - |hs|..] == hs
    ensures q == h + "." || HasSuffix(q, "." + h + ".")
  {
    var qs, hs := Split(q, '.'), Split(h, '.') + [""];
    var front := qs[..|qs| - |hs|];
    assert qs == front + hs;
    UnsplitSplit(q, '.');
    LabelsOfDotted(h);
    if front == [] {
      assert front + hs == hs;
    } else {
      JoinedTail(front, hs);
      assert ['.'] + (h + ".") == "." + h + ".";
    }
  }

  /** In terms of labels: those of the host, and the empty root label, end those of the query. */
  lemma MatchesOnLabels(qName: string, host: string)
    ensures var q, h := Split(Lower(qName), '.'), Split(Lower(host), '.') + [""];
            MatchesDomain(qName, host) <==> |h| <= |q| && q[|q| - |h|..] == h
  {
    var q, h := Lower(qName), Lower(host);
    if q == h + "." || HasSuffix(q, "." + h + ".") {
      MatchEndsLabels(q, h);
    }
    var qs, hs := Split(q, '.'), Split(h, '.') + [""];
    if |hs| <= |qs| && qs[|qs| - |hs|..] == hs {
      LabelsEndMeansMatch(q, h);
    }
  }

  /** A match ends the query. */
  lemma MatchIsTail(qName: string, host: string)
    requires MatchesDomain(qName, host)
    ensures |host| + 1 <= |qName| && Tail(Lower(qName), |host| + 1) == Lower(host) + "."
  {
    DottedTail(Lower(qName), Lower(host));
  }

  lemma DottedTail(q: string, h: string)
    requires q == h + "." || HasSuffix(q, "." + h + ".")
    ensures |h| + 1 <= |q| && Tail(q, |h| + 1) == h + "."
  {
    if q == h + "." {
      assert Tail(q, |q|) == q;
    } else {
      var n := |"." + h + "."|;
      assert ("." + h + ".")[1..] == h + ".";
      assert Tail(q, n - 1) == Tail(q, n)[1..];
    }
  }

  /** Two matches of one length differ in letter case at most. */
  lemma EqualLengthMatches(qName: string, a: string, b: string)
    requires MatchesDomain(qName, a) && MatchesDomain(qName, b) && |a| == |b|
    ensures Lower(a) == Lower(b)
  {
    MatchIsTail(qName, a);
    MatchIsTail(qName, b);
    assert (Lower(a) + ".")[..|a|] == Lower(a) && (Lower(b) + ".")[..|b|] == Lower(b);
  }

  /** Better than what was found so far. */
  predicate Beats(host: string, e: Entry, best: string, bestEntry: Entry) {
    |host| > |best| || (|host| == |best| && e.tunneled && !bestEntry.tunneled)
  }

  /** Nothing among these hosts matches and beats it. */
  ghost predicate Unbeaten(t: Table, hosts: set<string>, qName: string, best: string, bestEntry: Entry) {
    forall k | k in hosts && k in t && MatchesDomain(qName, k) :: !Beats(k, t[k], best, bestEntry)
  }

  /** A match that no key beats, or nothing when no key matches. */
  ghost predicate LookupResult(t: Table, qName: string, best: string, bestEntry: Entry) {
    && Unbeaten(t, t.Keys, qName, best, bestEntry)
    && ((best == "" && bestEntry == NONE) || (best in t && bestEntry == t[best] && MatchesDomain(qName, best)))
  }

  /** The longest matching name, a tunneled one among equals, however the table is walked. */
  method ClusterDNSLookup(t: Table, qName: string) returns (best: string, bestEntry: Entry)
    ensures LookupResult(t, qName, best, bestEntry)
    ensures forall k | k in t && MatchesDomain(qName, k) ::
              |k| < |best| || (|k| == |best| && (t[k].tunneled ==> bestEntry.tunneled))
  {
    best, bestEntry := "", NONE;
    var left := t.Keys;
    while left != {}
      invariant left <= t.Keys
      invariant Unbeaten(t, t.Keys - left, qName, best, bestEntry)
      invariant (best == "" && bestEntry == NONE) || (best in t && bestEntry == t[best] && MatchesDomain(qName, best))
      decreases |left|
    {
      var host :| host in left;
      left := left - {host};
      if MatchesDomain(qName, host) && Beats(host, t[host], best, bestEntry) {
        best, bestEntry := host, t[host];
      }
    }
    assert t.Keys - {} == t.Keys;
    assert forall k | k in t :: k in t.Keys;
  }

  /** Keys that differ by more than letter case, as section 3 of RFC 4343 compares names. */
  ghost predicate CaseDistinct(t: Table) {
    forall a, b | a in t && b in t && Lower(a) == Lower(b) :: a == b
  }

  /** When no two keys are the same name, every walk over the table gives the unique longest match,
      and none exactly when nothing matches. */
  lemma LookupIsLongest(t: Table, qName: string, a: string, ae: Entry)
    requires CaseDistinct(t) && "" !in t && LookupResult(t, qName, a, ae)
    ensures a == "" <==> forall k | k in t :: !MatchesDomain(qName, k)
    ensures forall k | k in t && MatchesDomain(qName, k) && k != a :: |k| < |a|
  {
    forall k | k in t && MatchesDomain(qName, k) && k != a ensures |k| < |a| {
      assert k in t.Keys;
      if |k| == |a| && a != "" {
        EqualLengthMatches(qName, k, a);
      }
    }
  }

  /** Two spellings of one name, of one kind, with no tunneled spelling to settle it. */
  ghost predicate Torn(t: Table, a: string, b: string) {
    && a in t && b in t && a != b && Lower(a) == Lower(b) && t[a].tunneled == t[b].tunneled
    && (t[a].tunneled || forall c | c in t && Lower(c) == Lower(a) :: !t[c].tunneled)
  }

  ghost predicate OneAnswer(t: Table, qName: string) {
    forall a, ae, b, be | LookupResult(t, qName, a, ae) && LookupResult(t, qName, b, be) :: a == b && ae == be
  }

  lemma DifferentAnswersAreTorn(t: Table, qName: string, a: string, ae: Entry, b: string, be: Entry)
    requires "" !in t
    requires LookupResult(t, qName, a, ae) && LookupResult(t, qName, b, be)
    ensures (a == b && ae == be) || Torn(t, a, b)
  {
    if a in t && b in t && a != b {
      assert a in t.Keys && b in t.Keys;
      assert !Beats(a, ae, b, be) && !Beats(b, be, a, ae);
      EqualLengthMatches(qName, a, b);
      forall c | c in t && Lower(c) == Lower(a) ensures t[a].tunneled || !t[c].tunneled {
        assert c in t.Keys && MatchesDomain(qName, c) && |c| == |a|;
        assert !Beats(c, t[c], a, ae);
      }
    }
  }

  lemma TornAnswers(t: Table, a: string, b: string)
    requires Torn(t, a, b)
    ensures LookupResult(t, Lower(a) + ".", a, t[a])
  {
    var q := Lower(a) + ".";
    assert Lower(q) == q by { LowerDotted(a); }
    forall k | k in t.Keys && k in t && MatchesDomain(q, k) ensures !Beats(k, t[k], a, t[a]) {
      MatchIsTail(q, k);
      if |k| == |a| {
        EqualLengthMatches(q, k, a);
      }
    }
  }

  lemma TornHasTwoAnswers(t: Table, a: string, b: string)
    requires Torn(t, a, b)
    ensures !OneAnswer(t, Lower(a) + ".")
  {
    TornAnswers(t, a, b);
    TornAnswers(t, b, a);
  }

  lemma {:induction false} LowerAppend(a: string, b: string)
    ensures Lower(a + b) == Lower(a) + Lower(b)
    decreases |a|
  {
    if a == [] {
      assert a + b == b;
    } else {
      assert (a + b)[0] == a[0] && (a + b)[1..] == a[1..] + b;
      LowerAppend(a[1..], b);
    }
  }

  lemma {:induction false} LowerTwice(s: string)
    ensures Lower(Lower(s)) == Lower(s)
    decreases |s|
  {
    if s != [] {
      LowerTwice(s[1..]);
      assert Lower(s)[1..] == Lower(s[1..]);
    }
  }

  lemma LowerDotted(s: string)
    ensures Lower(Lower(s) + ".") == Lower(s) + "."
  {
    LowerAppend(Lower(s), ".");
    LowerTwice(s);
    assert "."[1..] == "";
  }

  /** Exactly when the order of the walk cannot show: no name stands in the table under two
      spellings that are both tunneled, or both plain with no tunneled third. */
  lemma OneAnswerExactlyWhen(t: Table)
    requires "" !in t
    ensures (forall qName :: OneAnswer(t, qName)) <==> (forall a, b :: !Torn(t, a, b))
  {
    if forall a, b :: !Torn(t, a, b) {
      forall qName, a, ae, b, be | LookupResult(t, qName, a, ae) && LookupResult(t, qName, b, be)
        ensures a == b && ae == be
      {
        DifferentAnswersAreTorn(t, qName, a, ae, b, be);
      }
    }
    if forall qName :: OneAnswer(t, qName) {
      forall a, b ensures !Torn(t, a, b) {
        if Torn(t, a, b) {
          TornHasTwoAnswers(t, a, b);
        }
      }
    }
  }

  /** The letter case matters: with two plain keys that are the same name, two walks may differ. */
  lemma SameNameTwice()
    ensures var t: Table := map["A" := Entry(["1"], false), "a" := Entry(["2"], false)];
            LookupResult(t, "a.", "A", t["A"]) && LookupResult(t, "a.", "a", t["a"]) && t["A"] != t["a"]
  {
    var t: Table := map["A" := Entry(["1"], false), "a" := Entry(["2"], false)];
    assert "A"[0] != "a"[0] && "1"[0] != "2"[0];
    assert Lower("A") == ['a'] && Lower("a") == ['a'] by {
      assert "A"[1..] == "" && "a"[1..] == "";
    }
    assert Lower("a.") == ['a'] + Lower(".") && Lower(".") == ['.'] by {
      assert "a."[1..] == "." && "."[1..] == "";
    }
    assert MatchesDomain("a.", "A") && MatchesDomain("a.", "a");
    forall k | k in t.Keys ensures |k| == 1 && !t[k].tunneled {
    }
  }
}
