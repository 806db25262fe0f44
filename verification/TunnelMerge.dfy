/**
 Merging every node's advertised tunnel routes into one tunnel per route name: one target per
 advertised route, a configuration elected by device name, the local node first.
 */
module TunnelMerge {
  import opened Text

  const ANY: string := "_ANY_"

  /** `config` stands for the fields of the proxy route that the merge only carries along. */
  datatype Route = Route(name: string, tunnel: string, target: string, config: string, isTunneled: bool)

  datatype Heartbeat =
    Heartbeat(device: string, cpu: real, ram: real, monitoringOn: bool, tunnels: seq<Route>)

  datatype Target = Target(device: string, url: string, cpu: real, ram: real, monitoringOn: bool)

  datatype Tunnel = Tunnel(route: Route, targets: seq<Target>)

  /** A route as one heartbeat advertises it. */
  datatype Offer = Offer(hb: Heartbeat, route: Route)

  function TargetOf(o: Offer): Target {
    Target(o.hb.device, o.route.target, o.hb.cpu, o.hb.ram, o.hb.monitoringOn)
  }

  function Served(r: Route): Route {
    r.(isTunneled := true)
  }

  predicate Eligible(r: Route, me: string) {
    r.tunnel == ANY || r.tunnel == me
  }

  predicate Wanted(r: Route, me: string, name: string) {
    Eligible(r, me) && r.name == name
  }

  /** What one heartbeat offers under a name, in its own order. */
  function Block(hb: Heartbeat, routes: seq<Route>, me: string, name: string): (r: seq<Offer>)
    ensures forall o | o in r :: o.hb == hb && Wanted(o.route, me, name)
  {
    if routes == [] then []
    else
      var n := |routes| - 1;
      Block(hb, routes[..n], me, name) + if Wanted(routes[n], me, name) then [Offer(hb, routes[n])] else []
  }

  function BlockOf(hb: Heartbeat, me: string, name: string): seq<Offer> {
    Block(hb, hb.tunnels, me, name)
  }

  /** What all heartbeats offer under a name, in the order they come. */
  function Listed(hbs: seq<Heartbeat>, me: string, name: string): seq<Offer> {
    if hbs == [] then [] else Listed(hbs[..|hbs| - 1], me, name) + BlockOf(hbs[|hbs| - 1], me, name)
  }

  function Targets(os: seq<Offer>): (r: seq<Target>)
    ensures |r| == |os| && forall i | 0 <= i < |os| :: r[i] == TargetOf(os[i])
  {
    if os == [] then [] else Targets(os[..|os| - 1]) + [TargetOf(os[|os| - 1])]
  }

  // ----- who governs

  /** An unnamed advertiser never governs over a named one; of two named ones the lesser does. */
  predicate Better(a: string, b: string) {
    a != "" && (b == "" || Less(a, b))
  }

  lemma BetterIsStrict(a: string, b: string)
    ensures !(Better(a, b) && Better(b, a)) && !Better(a, a)
    ensures a == b || Better(a, b) || Better(b, a)
  {
    LessIrreflexive(a);
    LessTotal(a, b);
    if Less(a, b) {
      LessAsymmetric(a, b);
    }
  }

  lemma BetterTransitive(a: string, b: string, c: string)
    requires !Better(a, b) && !Better(b, c)
    ensures !Better(a, c)
  {
    BetterIsStrict(a, b);
    BetterIsStrict(b, c);
    BetterIsStrict(a, c);
    if Better(a, c) && a != b && b != c && c != "" && b != "" {
      LessTransitive(c, b, a);
    }
  }

  /** The first offer of the best advertiser. */
  ghost predicate Governor(os: seq<Offer>, k: int) {
    && 0 <= k < |os|
    && (forall j | 0 <= j < |os| :: !Better(os[j].hb.device, os[k].hb.device))
    && (forall j | 0 <= j < k :: os[j].hb.device != os[k].hb.device)
  }

  lemma OneGovernor(os: seq<Offer>, k: int, l: int)
    requires Governor(os, k) && Governor(os, l)
    ensures k == l
  {
    BetterIsStrict(os[k].hb.device, os[l].hb.device);
  }

  lemma GovernorKept(os: seq<Offer>, o: Offer, k: int)
    requires Governor(os, k) && !Better(o.hb.device, os[k].hb.device)
    ensures Governor(os + [o], k)
  {
  }

  lemma GovernorReplaced(os: seq<Offer>, o: Offer, k: int)
    requires Governor(os, k) && Better(o.hb.device, os[k].hb.device)
    ensures Governor(os + [o], |os|)
  {
    var all, d := os + [o], o.hb.device;
    forall j | 0 <= j < |all| ensures !Better(all[j].hb.device, d) && (j < |os| ==> all[j].hb.device != d) {
      BetterIsStrict(d, os[k].hb.device);
      if j < |os| {
        assert all[j] == os[j];
        BetterTransitive(os[j].hb.device, os[k].hb.device, d);
      }
    }
  }

  // ----- the accumulating loop

  /** The two maps of the merge hold, for this name, what the offers so far say. */
  ghost predicate NameOk(byName: map<string, Tunnel>, governing: map<string, string>, os: seq<Offer>, name: string) {
    && (name in byName <==> os != [])
    && (name in governing <==> name in byName)
    && (name in byName ==>
          && byName[name].targets == Targets(os)
          && exists k :: Governor(os, k) && byName[name].route == Served(os[k].route)
                         && governing[name] == os[k].hb.device)
  }

  function SoFar(hbs: seq<Heartbeat>, me: string, i: int, j: int, name: string): seq<Offer>
    requires 0 <= i < |hbs| && 0 <= j <= |hbs[i].tunnels|
  {
    Listed(hbs[..i], me, name) + Block(hbs[i], hbs[i].tunnels[..j], me, name)
  }

  lemma SoFarNext(hbs: seq<Heartbeat>, me: string, i: int, j: int, name: string)
    requires 0 <= i < |hbs| && 0 <= j < |hbs[i].tunnels|
    ensures var r := hbs[i].tunnels[j];
            SoFar(hbs, me, i, j + 1, name)
            == SoFar(hbs, me, i, j, name) + if Wanted(r, me, name) then [Offer(hbs[i], r)] else []
  {
    var routes := hbs[i].tunnels;
    assert routes[..j + 1][..j] == routes[..j];
  }

  lemma SoFarEnd(hbs: seq<Heartbeat>, me: string, i: int, name: string)
    requires 0 <= i < |hbs|
    ensures SoFar(hbs, me, i, 0, name) == Listed(hbs[..i], me, name)
    ensures SoFar(hbs, me, i, |hbs[i].tunnels|, name) == Listed(hbs[..i + 1], me, name)
  {
    assert hbs[..i + 1][..i] == hbs[..i];
    assert hbs[i].tunnels[..|hbs[i].tunnels|] == hbs[i].tunnels;
  }

  /** One eligible route: a first tunnel under its name, or one more target and perhaps a new governor. */
  method Record(byName: map<string, Tunnel>, governing: map<string, string>, o: Offer, ghost os: seq<Offer>)
    returns (byName': map<string, Tunnel>, governing': map<string, string>)
    requires NameOk(byName, governing, os, o.route.name)
    ensures NameOk(byName', governing', os + [o], o.route.name)
    ensures byName' - {o.route.name} == byName - {o.route.name}
    ensures governing' - {o.route.name} == governing - {o.route.name}
  {
    var name, advertiser := o.route.name, o.hb.device;
    if name !in byName {
      BetterIsStrict(advertiser, advertiser);
      assert Governor(os + [o], 0);
      assert Targets(os + [o]) == [TargetOf(o)];
      return byName[name := Tunnel(Served(o.route), [TargetOf(o)])], governing[name := advertiser];
    }
    var existing := byName[name].(targets := byName[name].targets + [TargetOf(o)]);
    assert existing.targets == Targets(os + [o]);
    ghost var k :| Governor(os, k) && byName[name].route == Served(os[k].route) && governing[name] == os[k].hb.device;
    if advertiser != "" && (governing[name] == "" || Less(advertiser, governing[name])) {
      GovernorReplaced(os, o, k);
      return byName[name := existing.(route := Served(o.route))], governing[name := advertiser];
    }
    GovernorKept(os, o, k);
    assert (os + [o])[k] == os[k];
    return byName[name := existing], governing;
  }

  lemma NameElsewhere(m: map<string, Tunnel>, g: map<string, string>, m': map<string, Tunnel>, g': map<string, string>,
                      touched: string, os: seq<Offer>, name: string)
    requires NameOk(m, g, os, name) && name != touched
    requires m' - {touched} == m - {touched} && g' - {touched} == g - {touched}
    ensures NameOk(m', g', os, name)
  {
    assert name in m <==> name in m - {touched};
    assert name in m' <==> name in m' - {touched};
    assert name in g <==> name in g - {touched};
    assert name in g' <==> name in g' - {touched};
    if name in m {
      assert m'[name] == (m' - {touched})[name] && m[name] == (m - {touched})[name];
      assert g'[name] == (g' - {touched})[name] && g[name] == (g - {touched})[name];
    }
  }

  ghost predicate AllOk(m: map<string, Tunnel>, g: map<string, string>, hbs: seq<Heartbeat>, me: string) {
    forall name :: NameOk(m, g, Listed(hbs, me, name), name)
  }

  ghost predicate AllSoFar(m: map<string, Tunnel>, g: map<string, string>, hbs: seq<Heartbeat>, me: string, i: int, j: int)
    requires 0 <= i < |hbs| && 0 <= j <= |hbs[i].tunnels|
  {
    forall name :: NameOk(m, g, SoFar(hbs, me, i, j, name), name)
  }

  lemma SkipRoute(m: map<string, Tunnel>, g: map<string, string>, hbs: seq<Heartbeat>, me: string, i: int, j: int)
    requires 0 <= i < |hbs| && 0 <= j < |hbs[i].tunnels| && !Eligible(hbs[i].tunnels[j], me)
    requires AllSoFar(m, g, hbs, me, i, j)
    ensures AllSoFar(m, g, hbs, me, i, j + 1)
  {
    var next := j + 1;
    forall name ensures NameOk(m, g, SoFar(hbs, me, i, next, name), name) {
      SoFarNext(hbs, me, i, j, name);
      assert NameOk(m, g, SoFar(hbs, me, i, j, name), name);
    }
  }

  lemma TakeRoute(m: map<string, Tunnel>, g: map<string, string>, m': map<string, Tunnel>, g': map<string, string>,
                  hbs: seq<Heartbeat>, me: string, i: int, j: int)
    requires 0 <= i < |hbs| && 0 <= j < |hbs[i].tunnels| && Eligible(hbs[i].tunnels[j], me)
    requires AllSoFar(m, g, hbs, me, i, j)
    requires var r := hbs[i].tunnels[j];
             && m' - {r.name} == m - {r.name} && g' - {r.name} == g - {r.name}
             && NameOk(m', g', SoFar(hbs, me, i, j, r.name) + [Offer(hbs[i], r)], r.name)
    ensures AllSoFar(m', g', hbs, me, i, j + 1)
  {
    var r, next := hbs[i].tunnels[j], j + 1;
    forall name ensures NameOk(m', g', SoFar(hbs, me, i, next, name), name) {
      SoFarNext(hbs, me, i, j, name);
      var os := SoFar(hbs, me, i, j, name);
      assert NameOk(m, g, os, name);
      if name != r.name {
        assert SoFar(hbs, me, i, next, name) == os;
        NameElsewhere(m, g, m', g', r.name, os, name);
      }
    }
  }

  lemma HeartbeatStart(m: map<string, Tunnel>, g: map<string, string>, hbs: seq<Heartbeat>, me: string, i: int)
    requires 0 <= i < |hbs| && AllOk(m, g, hbs[..i], me)
    ensures AllSoFar(m, g, hbs, me, i, 0)
  {
    var before := hbs[..i];
    forall name ensures NameOk(m, g, SoFar(hbs, me, i, 0, name), name) {
      SoFarEnd(hbs, me, i, name);
      assert NameOk(m, g, Listed(before, me, name), name);
    }
  }

  lemma HeartbeatEnd(m: map<string, Tunnel>, g: map<string, string>, hbs: seq<Heartbeat>, me: string, i: int)
    requires 0 <= i < |hbs| && AllSoFar(m, g, hbs, me, i, |hbs[i].tunnels|)
    ensures AllOk(m, g, hbs[..i + 1], me)
  {
    var after, last := hbs[..i + 1], |hbs[i].tunnels|;
    forall name ensures NameOk(m, g, Listed(after, me, name), name) {
      SoFarEnd(hbs, me, i, name);
      assert NameOk(m, g, SoFar(hbs, me, i, last, name), name);
    }
  }

  /** All routes of one heartbeat. */
  method RecordHeartbeat(byName0: map<string, Tunnel>, governing0: map<string, string>,
                         hbs: seq<Heartbeat>, me: string, i: int)
    returns (byName: map<string, Tunnel>, governing: map<string, string>)
    requires 0 <= i < |hbs| && AllOk(byName0, governing0, hbs[..i], me)
    ensures AllOk(byName, governing, hbs[..i + 1], me)
  {
    byName, governing := byName0, governing0;
    HeartbeatStart(byName, governing, hbs, me, i);
    var j := 0;
    while j < |hbs[i].tunnels|
      invariant 0 <= j <= |hbs[i].tunnels|
      invariant AllSoFar(byName, governing, hbs, me, i, j)
    {
      var route := hbs[i].tunnels[j];
      if Eligible(route, me) {
        ghost var m, g := byName, governing;
        byName, governing := Record(byName, governing, Offer(hbs[i], route), SoFar(hbs, me, i, j, route.name));
        TakeRoute(m, g, byName, governing, hbs, me, i, j);
      } else {
        SkipRoute(byName, governing, hbs, me, i, j);
      }
      j := j + 1;
    }
    HeartbeatEnd(byName, governing, hbs, me, i);
  }

  // ----- the local node first

  ghost predicate LocalFirst(ts: seq<Target>, me: string) {
    (exists i :: 0 <= i < |ts| && ts[i].device == me) ==> ts[0].device == me
  }

  method PutLocalFirst(ts: seq<Target>, me: string) returns (r: seq<Target>)
    ensures multiset(r) == multiset(ts)
    ensures LocalFirst(r, me)
    ensures ts != [] ==> r != [] && exists i :: 0 <= i < |ts| && r == ts[0 := ts[i]][i := ts[0]]
  {
    var i := 0;
    while i < |ts| && !(ts[i].device == me && i != 0)
      invariant i <= |ts|
      invariant forall j | 0 < j < i :: ts[j].device != me
    {
      i := i + 1;
    }
    if i < |ts| {
      r := ts[0 := ts[i]][i := ts[0]];
    } else {
      r := ts;
      assert ts != [] ==> ts == ts[0 := ts[0]][0 := ts[0]];
    }
  }

  // ----- the merge

  ghost predicate TunnelOk(t: Tunnel, hbs: seq<Heartbeat>, me: string) {
    var os := Listed(hbs, me, t.route.name);
    && multiset(t.targets) == multiset(Targets(os))
    && LocalFirst(t.targets, me)
    && exists k :: Governor(os, k) && t.route == Served(os[k].route)
  }

  ghost predicate HasName(ts: seq<Tunnel>, name: string) {
    exists i :: 0 <= i < |ts| && ts[i].route.name == name
  }

  ghost predicate NamesDiffer(ts: seq<Tunnel>) {
    forall i, j | 0 <= i < j < |ts| :: ts[i].route.name != ts[j].route.name
  }

  /** One tunnel for each name that is offered, and no other. */
  ghost predicate Merged(ts: seq<Tunnel>, hbs: seq<Heartbeat>, me: string) {
    && (forall i | 0 <= i < |ts| :: TunnelOk(ts[i], hbs, me))
    && NamesDiffer(ts)
    && (forall name :: Listed(hbs, me, name) != [] <==> HasName(ts, name))
  }

  // ----- the same, in terms of the heartbeats' fields

  /** A route of this name that this node is to serve. */
  predicate ForMe(r: Route, me: string, name: string) {
    r.name == name && (r.tunnel == "_ANY_" || r.tunnel == me)
  }

  /** One of two advertisers that may govern: a named one over unnamed ones, the lesser of two names. */
  predicate Yields(other: string, device: string) {
    (device == "" ==> other == "") && (other == "" || other == device || Less(device, other))
  }

  /** The first advertised route of the name, among those of the device that all others yield to. */
  ghost predicate Leads(hbs: seq<Heartbeat>, me: string, name: string, i: int, j: int) {
    && 0 <= i < |hbs| && 0 <= j < |hbs[i].tunnels| && ForMe(hbs[i].tunnels[j], me, name)
    && (forall p, q | 0 <= p < |hbs| && 0 <= q < |hbs[p].tunnels| && ForMe(hbs[p].tunnels[q], me, name) ::
          Yields(hbs[p].device, hbs[i].device) && (hbs[p].device == hbs[i].device ==> p > i || (p == i && q >= j)))
  }

  predicate IsTarget(x: Target, hb: Heartbeat, r: Route) {
    x.device == hb.device && x.url == r.target && x.cpu == hb.cpu && x.ram == hb.ram && x.monitoringOn == hb.monitoringOn
  }

  /** The places in the heartbeats at which this target is advertised under the name. */
  ghost function Advertised(hbs: seq<Heartbeat>, me: string, name: string, x: Target): set<(int, int)> {
    set i, j | 0 <= i < |hbs| && 0 <= j < |hbs[i].tunnels|
               && ForMe(hbs[i].tunnels[j], me, name) && IsTarget(x, hbs[i], hbs[i].tunnels[j]) :: (i, j)
  }

  /** The tunnel has the leading route, marked as tunneled; each target as often as it is advertised; and
      the local node in front. */
  ghost predicate TunnelMeans(t: Tunnel, hbs: seq<Heartbeat>, me: string) {
    && (exists i, j :: Leads(hbs, me, t.route.name, i, j) && Carried(hbs[i].tunnels[j], t.route))
    && (forall x :: multiset(t.targets)[x] == |Advertised(hbs, me, t.route.name, x)|)
    && ((exists i :: 0 <= i < |t.targets| && t.targets[i].device == me) ==> t.targets[0].device == me)
  }

  predicate Carried(r: Route, t: Route) {
    t.name == r.name && t.tunnel == r.tunnel && t.target == r.target && t.config == r.config && t.isTunneled
  }

  /** Some heartbeat has a route of this name for this node. */
  ghost predicate Wants(hbs: seq<Heartbeat>, me: string, name: string) {
    exists hb, r :: hb in hbs && r in hb.tunnels && ForMe(r, me, name)
  }

  lemma {:induction false} BlockMembers(hb: Heartbeat, routes: seq<Route>, me: string, name: string, o: Offer)
    ensures o in Block(hb, routes, me, name) <==> o.hb == hb && o.route in routes && Wanted(o.route, me, name)
  {
    if routes != [] {
      var n := |routes| - 1;
      BlockMembers(hb, routes[..n], me, name, o);
      assert routes == routes[..n] + [routes[n]];
    }
  }

  lemma {:induction false} BlockFirst(hb: Heartbeat, routes: seq<Route>, me: string, name: string) returns (j: int)
    requires Block(hb, routes, me, name) != []
    ensures 0 <= j < |routes| && Wanted(routes[j], me, name) && Block(hb, routes, me, name)[0] == Offer(hb, routes[j])
    ensures forall q | 0 <= q < j :: !Wanted(routes[q], me, name)
  {
    var n := |routes| - 1;
    if Block(hb, routes[..n], me, name) != [] {
      j := BlockFirst(hb, routes[..n], me, name);
    } else {
      j := n;
      forall q | 0 <= q < n ensures !Wanted(routes[q], me, name) {
        BlockMembers(hb, routes[..n], me, name, Offer(hb, routes[q]));
        assert routes[..n][q] == routes[q];
      }
    }
  }

  lemma InListed(hbs: seq<Heartbeat>, me: string, name: string, p: int, q: int) returns (k: int)
    requires 0 <= p < |hbs| && 0 <= q < |hbs[p].tunnels| && ForMe(hbs[p].tunnels[q], me, name)
    ensures 0 <= k < |Listed(hbs, me, name)| && Listed(hbs, me, name)[k] == Offer(hbs[p], hbs[p].tunnels[q])
  {
    var o := Offer(hbs[p], hbs[p].tunnels[q]);
    BlockMembers(hbs[p], hbs[p].tunnels, me, name, o);
    ListedMembers(hbs, me, name, o);
    k :| 0 <= k < |Listed(hbs, me, name)| && Listed(hbs, me, name)[k] == o;
  }

  lemma NotBetterYields(other: string, device: string)
    ensures !Better(other, device) <==> Yields(other, device)
  {
    BetterIsStrict(other, device);
    if Less(device, other) {
      LessAsymmetric(device, other);
    }
  }

  /** Where the governor stands in the heartbeats: no earlier place has its device. */
  lemma {:induction false} GovernorStands(hbs: seq<Heartbeat>, me: string, name: string, k: int) returns (i: int, j: int)
    requires Governor(Listed(hbs, me, name), k)
    ensures 0 <= i < |hbs| && 0 <= j < |hbs[i].tunnels| && ForMe(hbs[i].tunnels[j], me, name)
    ensures Listed(hbs, me, name)[k] == Offer(hbs[i], hbs[i].tunnels[j])
    ensures forall p, q | 0 <= p < |hbs| && 0 <= q < |hbs[p].tunnels| && ForMe(hbs[p].tunnels[q], me, name)
                          && hbs[p].device == hbs[i].device :: p > i || (p == i && q >= j)
    decreases |hbs|
  {
    var n := |hbs| - 1;
    var before, block := Listed(hbs[..n], me, name), BlockOf(hbs[n], me, name);
    if k < |before| {
      GovernorShrinks(before, block, k);
      i, j := GovernorStands(hbs[..n], me, name, k);
    } else {
      FirstOfBlock(before, block, k);
      i := n;
      j := BlockFirst(hbs[n], hbs[n].tunnels, me, name);
      forall p, q | 0 <= p < n && 0 <= q < |hbs[p].tunnels| && ForMe(hbs[p].tunnels[q], me, name)
        ensures hbs[p].device != hbs[n].device
      {
        var l := InListed(hbs[..n], me, name, p, q);
        assert (before + block)[l] == before[l];
      }
    }
  }

  lemma GovernorIsLeading(hbs: seq<Heartbeat>, me: string, name: string, k: int) returns (i: int, j: int)
    requires Governor(Listed(hbs, me, name), k)
    ensures Leads(hbs, me, name, i, j) && Listed(hbs, me, name)[k] == Offer(hbs[i], hbs[i].tunnels[j])
  {
    i, j := GovernorStands(hbs, me, name, k);
    forall p, q | 0 <= p < |hbs| && 0 <= q < |hbs[p].tunnels| && ForMe(hbs[p].tunnels[q], me, name)
      ensures Yields(hbs[p].device, hbs[i].device)
    {
      var l := InListed(hbs, me, name, p, q);
      NotBetterYields(hbs[p].device, hbs[i].device);
    }
  }

  lemma PairsAreAdvertised(hbs: seq<Heartbeat>, me: string, name: string, x: Target)
    ensures Pairs(hbs, |hbs|, me, name, x) == Advertised(hbs, me, name, x)
  {
    forall i, j | 0 <= i < |hbs| && 0 <= j < |hbs[i].tunnels|
      ensures j in Places(hbs[i], |hbs[i].tunnels|, me, name, x) <==>
              ForMe(hbs[i].tunnels[j], me, name) && IsTarget(x, hbs[i], hbs[i].tunnels[j])
    {
    }
  }

  lemma OkMeans(t: Tunnel, hbs: seq<Heartbeat>, me: string)
    requires TunnelOk(t, hbs, me)
    ensures TunnelMeans(t, hbs, me)
  {
    var name := t.route.name;
    var os := Listed(hbs, me, name);
    var k :| Governor(os, k) && t.route == Served(os[k].route);
    var i, j := GovernorIsLeading(hbs, me, name, k);
    assert Carried(hbs[i].tunnels[j], t.route);
    forall x ensures multiset(t.targets)[x] == |Advertised(hbs, me, name, x)| {
      OneTargetPerPair(hbs, me, name, x);
      PairsAreAdvertised(hbs, me, name, x);
    }
  }

  lemma ListedIsWanted(hbs: seq<Heartbeat>, me: string, name: string)
    ensures Listed(hbs, me, name) != [] <==> Wants(hbs, me, name)
  {
    var os := Listed(hbs, me, name);
    if os != [] {
      var o := os[0];
      assert o in os;
      ListedMembers(hbs, me, name, o);
      BlockMembers(o.hb, o.hb.tunnels, me, name, o);
      assert ForMe(o.route, me, name);
    }
    if Wants(hbs, me, name) {
      var hb, r :| hb in hbs && r in hb.tunnels && ForMe(r, me, name);
      BlockMembers(hb, hb.tunnels, me, name, Offer(hb, r));
      ListedMembers(hbs, me, name, Offer(hb, r));
    }
  }

  lemma MergedMeans(ts: seq<Tunnel>, hbs: seq<Heartbeat>, me: string)
    requires Merged(ts, hbs, me)
    ensures forall i | 0 <= i < |ts| :: TunnelMeans(ts[i], hbs, me)
    ensures forall name :: Wants(hbs, me, name) <==> HasName(ts, name)
  {
    forall i | 0 <= i < |ts| ensures TunnelMeans(ts[i], hbs, me) {
      OkMeans(ts[i], hbs, me);
    }
    forall name ensures Wants(hbs, me, name) <==> HasName(ts, name) {
      ListedIsWanted(hbs, me, name);
    }
  }

  // ----- the whole

  method MergeTunnelHeartbeats(hbs: seq<Heartbeat>, me: string) returns (ts: seq<Tunnel>)
    ensures Merged(ts, hbs, me)
    ensures forall i | 0 <= i < |ts| :: TunnelMeans(ts[i], hbs, me)
    ensures forall i, j | 0 <= i < j < |ts| :: ts[i].route.name != ts[j].route.name
    ensures forall name :: Wants(hbs, me, name) <==> exists i :: 0 <= i < |ts| && ts[i].route.name == name
  {
    var byName: map<string, Tunnel>, governing: map<string, string> := map[], map[];
    var i := 0;
    while i < |hbs|
      invariant 0 <= i <= |hbs|
      invariant AllOk(byName, governing, hbs[..i], me)
    {
      byName, governing := RecordHeartbeat(byName, governing, hbs, me, i);
      i := i + 1;
    }
    assert hbs[..|hbs|] == hbs;
    ts := Emit(byName, governing, hbs, me);
    MergedMeans(ts, hbs, me);
  }

  /** Finishing the tunnels in whatever order the map is walked. */
  method Emit(byName: map<string, Tunnel>, ghost governing: map<string, string>, hbs: seq<Heartbeat>, me: string)
    returns (ts: seq<Tunnel>)
    requires AllOk(byName, governing, hbs, me)
    ensures Merged(ts, hbs, me)
  {
    ts := [];
    var left := byName.Keys;
    while left != {}
      invariant left <= byName.Keys && Emitted(ts, hbs, me, byName.Keys - left)
      decreases |left|
    {
      var name :| name in left;
      var t := FinishTunnel(byName, governing, hbs, me, name);
      EmitOne(ts, t, hbs, me, byName.Keys - left);
      OneLess(byName.Keys, left, name);
      left := left - {name};
      ts := ts + [t];
    }
    EmittedAll(ts, byName, governing, hbs, me, byName.Keys - left);
  }

  lemma OneLess(all: set<string>, left: set<string>, name: string)
    requires left <= all && name in left
    ensures all - (left - {name}) == all - left + {name} && name !in all - left
  {
  }

  lemma EmittedAll(ts: seq<Tunnel>, byName: map<string, Tunnel>, governing: map<string, string>,
                   hbs: seq<Heartbeat>, me: string, done: set<string>)
    requires AllOk(byName, governing, hbs, me) && done == byName.Keys && Emitted(ts, hbs, me, done)
    ensures Merged(ts, hbs, me)
  {
    forall name ensures Listed(hbs, me, name) != [] <==> HasName(ts, name) {
      assert NameOk(byName, governing, Listed(hbs, me, name), name);
      assert name in done <==> HasName(ts, name);
    }
  }

  lemma {:induction false} ListedNames(hbs: seq<Heartbeat>, me: string, name: string)
    ensures forall o | o in Listed(hbs, me, name) :: Wanted(o.route, me, name)
  {
    if hbs != [] {
      ListedNames(hbs[..|hbs| - 1], me, name);
    }
  }

  /** The tunnels emitted so far are those of the names done. */
  ghost predicate Emitted(ts: seq<Tunnel>, hbs: seq<Heartbeat>, me: string, done: set<string>) {
    && (forall i | 0 <= i < |ts| :: TunnelOk(ts[i], hbs, me))
    && NamesDiffer(ts)
    && (forall name :: name in done <==> HasName(ts, name))
  }

  method FinishTunnel(byName: map<string, Tunnel>, ghost governing: map<string, string>,
                      hbs: seq<Heartbeat>, me: string, name: string) returns (t: Tunnel)
    requires AllOk(byName, governing, hbs, me) && name in byName
    ensures t.route.name == name && TunnelOk(t, hbs, me)
  {
    assert NameOk(byName, governing, Listed(hbs, me, name), name);
    ListedNames(hbs, me, name);
    var targets := PutLocalFirst(byName[name].targets, me);
    t := Tunnel(byName[name].route, targets);
  }

  lemma HasNameSnoc(ts: seq<Tunnel>, t: Tunnel, x: string)
    ensures HasName(ts + [t], x) <==> HasName(ts, x) || x == t.route.name
  {
    var ts' := ts + [t];
    assert ts'[|ts|] == t;
    if HasName(ts, x) {
      var i :| 0 <= i < |ts| && ts[i].route.name == x;
      assert ts'[i].route.name == x;
    }
    if HasName(ts', x) && x != t.route.name {
      var i :| 0 <= i < |ts'| && ts'[i].route.name == x;
      assert ts[i].route.name == x;
    }
  }

  lemma NamesDifferSnoc(ts: seq<Tunnel>, t: Tunnel)
    requires NamesDiffer(ts) && !HasName(ts, t.route.name)
    ensures NamesDiffer(ts + [t])
  {
    var ts' := ts + [t];
    forall i, j | 0 <= i < j < |ts'| ensures ts'[i].route.name != ts'[j].route.name {
      assert ts'[i] == ts[i];
    }
  }

  lemma EmitOne(ts: seq<Tunnel>, t: Tunnel, hbs: seq<Heartbeat>, me: string, done: set<string>)
    requires Emitted(ts, hbs, me, done) && TunnelOk(t, hbs, me) && t.route.name !in done
    ensures Emitted(ts + [t], hbs, me, done + {t.route.name})
  {
    NamesDifferSnoc(ts, t);
    var ts' := ts + [t];
    forall x ensures x in done + {t.route.name} <==> HasName(ts', x) {
      HasNameSnoc(ts, t, x);
    }
    forall i | 0 <= i < |ts'| ensures TunnelOk(ts'[i], hbs, me) {
      assert i < |ts| ==> ts'[i] == ts[i];
    }
  }

  // ----- each eligible pair is one target

  /** The places of the wanted routes of one heartbeat that become a given target. */
  ghost function Places(hb: Heartbeat, n: int, me: string, name: string, x: Target): set<int>
    requires 0 <= n <= |hb.tunnels|
  {
    set j | 0 <= j < n && Wanted(hb.tunnels[j], me, name) && TargetOf(Offer(hb, hb.tunnels[j])) == x
  }

  /** The (heartbeat, route) pairs that become a given target. */
  ghost function Pairs(hbs: seq<Heartbeat>, n: int, me: string, name: string, x: Target): set<(int, int)>
    requires 0 <= n <= |hbs|
  {
    set i, j | 0 <= i < n && 0 <= j < |hbs[i].tunnels| && j in Places(hbs[i], |hbs[i].tunnels|, me, name, x) :: (i, j)
  }

  function Count(os: seq<Offer>, x: Target): nat {
    multiset(Targets(os))[x]
  }

  lemma {:induction false} TargetsAppend(a: seq<Offer>, b: seq<Offer>)
    ensures Targets(a + b) == Targets(a) + Targets(b)
  {
  }

  lemma CountAppend(a: seq<Offer>, b: seq<Offer>, x: Target)
    ensures Count(a + b, x) == Count(a, x) + Count(b, x)
  {
    TargetsAppend(a, b);
  }

  predicate Becomes(hb: Heartbeat, r: Route, me: string, name: string, x: Target) {
    Wanted(r, me, name) && TargetOf(Offer(hb, r)) == x
  }

  lemma PlacesNext(hb: Heartbeat, m: int, me: string, name: string, x: Target)
    requires 0 <= m < |hb.tunnels|
    ensures Places(hb, m + 1, me, name, x)
            == Places(hb, m, me, name, x) + if Becomes(hb, hb.tunnels[m], me, name, x) then {m} else {}
    ensures m !in Places(hb, m, me, name, x)
  {
  }

  ghost predicate IsRow(row: set<(int, int)>, i: int, places: set<int>) {
    && (forall p | p in row :: p.0 == i && p.1 in places)
    && (forall j | j in places :: (i, j) in row)
  }

  lemma NewPlace(hb: Heartbeat, m: int, me: string, name: string, x: Target, i: int, row: set<(int, int)>)
    returns (row': set<(int, int)>)
    requires 0 <= m < |hb.tunnels| && IsRow(row, i, Places(hb, m, me, name, x))
    ensures IsRow(row', i, Places(hb, m + 1, me, name, x))
    ensures |row'| == |row| + if Becomes(hb, hb.tunnels[m], me, name, x) then 1 else 0
  {
    PlacesNext(hb, m, me, name, x);
    var places := Places(hb, m, me, name, x);
    if Becomes(hb, hb.tunnels[m], me, name, x) {
      RowNext(row, i, places, m);
      row' := row + {(i, m)};
    } else {
      assert places + {} == places;
      row' := row;
    }
  }

  lemma RowNext(row: set<(int, int)>, i: int, places: set<int>, j: int)
    requires IsRow(row, i, places) && j !in places
    ensures IsRow(row + {(i, j)}, i, places + {j}) && |row + {(i, j)}| == |row| + 1
  {
    assert (i, j) !in row;
  }

  lemma NoPlace(hb: Heartbeat, me: string, name: string, x: Target)
    ensures Places(hb, 0, me, name, x) == {}
  {
  }

  function Hits(hb: Heartbeat, n: int, me: string, name: string, x: Target): nat
    requires 0 <= n <= |hb.tunnels|
    decreases n
  {
    if n == 0 then 0 else Hits(hb, n - 1, me, name, x) + if Becomes(hb, hb.tunnels[n - 1], me, name, x) then 1 else 0
  }

  function BlockCount(hb: Heartbeat, routes: seq<Route>, me: string, name: string, x: Target): nat {
    Count(Block(hb, routes, me, name), x)
  }

  lemma EmptyBlock(hb: Heartbeat, me: string, name: string, x: Target)
    ensures BlockCount(hb, [], me, name, x) == 0
  {
  }

  lemma BlockCountSnoc(hb: Heartbeat, before: seq<Route>, r: Route, me: string, name: string, x: Target)
    ensures BlockCount(hb, before + [r], me, name, x)
            == BlockCount(hb, before, me, name, x) + if Becomes(hb, r, me, name, x) then 1 else 0
  {
    var block := Block(hb, before, me, name);
    assert (before + [r])[..|before|] == before;
    if Wanted(r, me, name) {
      CountAppend(block, [Offer(hb, r)], x);
      assert Targets([Offer(hb, r)]) == [TargetOf(Offer(hb, r))];
    } else {
      assert block + [] == block;
    }
  }

  lemma BlockCountUpTo(hb: Heartbeat, n: int, me: string, name: string, x: Target)
    requires 0 < n <= |hb.tunnels|
    ensures BlockCount(hb, hb.tunnels[..n], me, name, x)
            == BlockCount(hb, hb.tunnels[..n - 1], me, name, x) + if Becomes(hb, hb.tunnels[n - 1], me, name, x) then 1 else 0
  {
    assert hb.tunnels[..n] == hb.tunnels[..n - 1] + [hb.tunnels[n - 1]];
    BlockCountSnoc(hb, hb.tunnels[..n - 1], hb.tunnels[n - 1], me, name, x);
  }

  lemma {:induction false} HitsCount(hb: Heartbeat, n: int, me: string, name: string, x: Target)
    requires 0 <= n <= |hb.tunnels|
    ensures Hits(hb, n, me, name, x) == BlockCount(hb, hb.tunnels[..n], me, name, x)
    decreases n
  {
    if n == 0 {
      EmptyBlock(hb, me, name, x);
      assert hb.tunnels[..0] == [];
    } else {
      HitsCount(hb, n - 1, me, name, x);
      BlockCountUpTo(hb, n, me, name, x);
    }
  }

  /** The pairs of one heartbeat number what its block counts. */
  lemma {:induction false} Row(i: int, hb: Heartbeat, n: int, me: string, name: string, x: Target)
    returns (row: set<(int, int)>)
    requires 0 <= n <= |hb.tunnels|
    ensures |row| == Hits(hb, n, me, name, x)
    ensures IsRow(row, i, Places(hb, n, me, name, x))
  {
    if n == 0 {
      row := {};
      NoPlace(hb, me, name, x);
    } else {
      var before := Row(i, hb, n - 1, me, name, x);
      row := NewPlace(hb, n - 1, me, name, x, i, before);
    }
  }

  lemma PairsNext(hbs: seq<Heartbeat>, m: int, me: string, name: string, x: Target, row: set<(int, int)>)
    requires 0 <= m < |hbs|
    requires IsRow(row, m, Places(hbs[m], |hbs[m].tunnels|, me, name, x))
    ensures |Pairs(hbs, m + 1, me, name, x)| == |Pairs(hbs, m, me, name, x)| + |row|
  {
    assert Pairs(hbs, m + 1, me, name, x) == Pairs(hbs, m, me, name, x) + row;
    assert Pairs(hbs, m, me, name, x) !! row;
  }

  lemma ListedCountSnoc(before: seq<Heartbeat>, hb: Heartbeat, me: string, name: string, x: Target)
    ensures Count(Listed(before + [hb], me, name), x)
            == Count(Listed(before, me, name), x) + BlockCount(hb, hb.tunnels, me, name, x)
  {
    assert (before + [hb])[..|before|] == before;
    CountAppend(Listed(before, me, name), BlockOf(hb, me, name), x);
  }

  lemma PairsCountNext(hbs: seq<Heartbeat>, m: int, me: string, name: string, x: Target)
    requires 0 <= m < |hbs|
    ensures |Pairs(hbs, m + 1, me, name, x)|
            == |Pairs(hbs, m, me, name, x)| + BlockCount(hbs[m], hbs[m].tunnels, me, name, x)
  {
    var hb := hbs[m];
    var row := Row(m, hb, |hb.tunnels|, me, name, x);
    HitsCount(hb, |hb.tunnels|, me, name, x);
    assert hb.tunnels[..|hb.tunnels|] == hb.tunnels;
    PairsNext(hbs, m, me, name, x, row);
  }

  function CountUpTo(hbs: seq<Heartbeat>, n: int, me: string, name: string, x: Target): nat
    requires 0 <= n <= |hbs|
    decreases n
  {
    if n == 0 then 0 else CountUpTo(hbs, n - 1, me, name, x) + BlockCount(hbs[n - 1], hbs[n - 1].tunnels, me, name, x)
  }

  lemma NoPairs(hbs: seq<Heartbeat>, me: string, name: string, x: Target)
    ensures |Pairs(hbs, 0, me, name, x)| == 0
  {
    assert Pairs(hbs, 0, me, name, x) == {};
  }

  lemma PairsCountUpTo(hbs: seq<Heartbeat>, n: int, me: string, name: string, x: Target)
    requires 0 < n <= |hbs|
    ensures |Pairs(hbs, n, me, name, x)|
            == |Pairs(hbs, n - 1, me, name, x)| + BlockCount(hbs[n - 1], hbs[n - 1].tunnels, me, name, x)
  {
    PairsCountNext(hbs, n - 1, me, name, x);
  }

  lemma {:induction false} CountsPairs(hbs: seq<Heartbeat>, n: int, me: string, name: string, x: Target)
    requires 0 <= n <= |hbs|
    ensures CountUpTo(hbs, n, me, name, x) == |Pairs(hbs, n, me, name, x)|
    decreases n
  {
    if n == 0 {
      NoPairs(hbs, me, name, x);
    } else {
      CountsPairs(hbs, n - 1, me, name, x);
      PairsCountUpTo(hbs, n, me, name, x);
    }
  }

  lemma {:induction false} CountsListed(hbs: seq<Heartbeat>, n: int, me: string, name: string, x: Target)
    requires 0 <= n <= |hbs|
    ensures CountUpTo(hbs, n, me, name, x) == Count(Listed(hbs[..n], me, name), x)
    decreases n
  {
    if n == 0 {
      assert hbs[..0] == [];
      NothingListed(hbs[..0], me, name, x);
    } else {
      CountsListed(hbs, n - 1, me, name, x);
      ListedCountUpTo(hbs, n, me, name, x);
    }
  }

  lemma ListedCountUpTo(hbs: seq<Heartbeat>, n: int, me: string, name: string, x: Target)
    requires 0 < n <= |hbs|
    ensures Count(Listed(hbs[..n], me, name), x)
            == Count(Listed(hbs[..n - 1], me, name), x) + BlockCount(hbs[n - 1], hbs[n - 1].tunnels, me, name, x)
  {
    assert hbs[..n] == hbs[..n - 1] + [hbs[n - 1]];
    ListedCountSnoc(hbs[..n - 1], hbs[n - 1], me, name, x);
  }

  lemma NothingListed(hbs: seq<Heartbeat>, me: string, name: string, x: Target)
    requires hbs == []
    ensures Count(Listed(hbs, me, name), x) == 0
  {
  }

  /** Each eligible (heartbeat, route) pair of a name becomes exactly one target. */
  lemma OneTargetPerPair(hbs: seq<Heartbeat>, me: string, name: string, x: Target)
    ensures Count(Listed(hbs, me, name), x) == |Pairs(hbs, |hbs|, me, name, x)|
  {
    CountsPairs(hbs, |hbs|, me, name, x);
    CountsListed(hbs, |hbs|, me, name, x);
    assert hbs[..|hbs|] == hbs;
  }

  // ----- which route governs, and that the order of the heartbeats does not show

  predicate Offering(hb: Heartbeat, me: string, name: string) {
    BlockOf(hb, me, name) != []
  }

  /** No heartbeat that offers the name has a better device than this one. */
  ghost predicate Governs(hbs: seq<Heartbeat>, me: string, name: string, hb: Heartbeat) {
    && hb in hbs && Offering(hb, me, name)
    && forall h | h in hbs && Offering(h, me, name) :: !Better(h.device, hb.device)
  }

  /** The route a governing heartbeat stands for: its first one of that name. */
  function Leading(hb: Heartbeat, me: string, name: string): Route
    requires Offering(hb, me, name)
  {
    Served(BlockOf(hb, me, name)[0].route)
  }

  lemma {:induction false} ListedMembers(hbs: seq<Heartbeat>, me: string, name: string, o: Offer)
    ensures o in Listed(hbs, me, name) <==> o.hb in hbs && o in BlockOf(o.hb, me, name)
  {
    if hbs != [] {
      var n := |hbs| - 1;
      ListedMembers(hbs[..n], me, name, o);
      assert hbs == hbs[..n] + [hbs[n]];
    }
  }

  lemma {:induction false} GovernorLeads(hbs: seq<Heartbeat>, me: string, name: string, k: int)
    requires Governor(Listed(hbs, me, name), k)
    ensures var o := Listed(hbs, me, name)[k]; Offering(o.hb, me, name) && o == BlockOf(o.hb, me, name)[0]
    decreases |hbs|
  {
    var n := |hbs| - 1;
    var before, block := Listed(hbs[..n], me, name), BlockOf(hbs[n], me, name);
    if k < |before| {
      GovernorShrinks(before, block, k);
      GovernorLeads(hbs[..n], me, name, k);
    } else {
      FirstOfBlock(before, block, k);
    }
  }

  lemma FirstOfBlock(before: seq<Offer>, block: seq<Offer>, k: int)
    requires Governor(before + block, k) && k >= |before|
    requires forall o | o in block :: o.hb == block[0].hb
    ensures k == |before| && (before + block)[k] == block[0]
  {
    var n := |before|;
    assert (before + block)[n] == block[0];
    assert (before + block)[k] == block[k - n] && block[k - n] in block;
  }

  lemma GovernorShrinks(a: seq<Offer>, b: seq<Offer>, k: int)
    requires Governor(a + b, k) && k < |a|
    ensures Governor(a, k)
  {
    forall j | 0 <= j < |a| ensures (a + b)[j] == a[j] {
    }
  }

  /** The merged route is the leading route of a heartbeat that governs. */
  lemma GovernorGoverns(hbs: seq<Heartbeat>, me: string, name: string, k: int) returns (hb: Heartbeat)
    requires Governor(Listed(hbs, me, name), k)
    ensures Governs(hbs, me, name, hb) && Served(Listed(hbs, me, name)[k].route) == Leading(hb, me, name)
  {
    var os := Listed(hbs, me, name);
    hb := os[k].hb;
    GovernorLeads(hbs, me, name, k);
    ListedMembers(hbs, me, name, os[k]);
    forall h | h in hbs && Offering(h, me, name) ensures !Better(h.device, hb.device) {
      var o := BlockOf(h, me, name)[0];
      assert o in BlockOf(h, me, name);
      ListedMembers(hbs, me, name, o);
    }
  }

  /** The heartbeats that could govern agree on the route they lead with. */
  ghost predicate Settled(hbs: seq<Heartbeat>, me: string, name: string) {
    forall a, b | Governs(hbs, me, name, a) && Governs(hbs, me, name, b) :: Leading(a, me, name) == Leading(b, me, name)
  }

  /** Distinct device names settle every route. */
  lemma DistinctNamesSettle(hbs: seq<Heartbeat>, me: string, name: string)
    requires forall a, b | a in hbs && b in hbs && a.device == b.device :: a == b
    ensures Settled(hbs, me, name)
  {
    forall a, b | Governs(hbs, me, name, a) && Governs(hbs, me, name, b) ensures a == b {
      BetterIsStrict(a.device, b.device);
    }
  }

  /** A named advertiser suffices where only the named ones are distinct. */
  lemma NamedOneSettles(hbs: seq<Heartbeat>, me: string, name: string, hb: Heartbeat)
    requires forall a, b | a in hbs && b in hbs && a.device == b.device != "" :: a == b
    requires hb in hbs && Offering(hb, me, name) && hb.device != ""
    ensures Settled(hbs, me, name)
    ensures forall a | Governs(hbs, me, name, a) ::
              a.device != "" && forall h | h in hbs && Offering(h, me, name) && h.device != "" && h != a :: Less(a.device, h.device)
  {
    forall a, b | Governs(hbs, me, name, a) && Governs(hbs, me, name, b) ensures a == b {
      BetterIsStrict(a.device, b.device);
    }
    forall a, h | Governs(hbs, me, name, a) && h in hbs && Offering(h, me, name) && h.device != "" && h != a
      ensures a.device != "" && Less(a.device, h.device)
    {
      BetterIsStrict(a.device, h.device);
    }
  }

  lemma GovernsElsewhere(hbs: seq<Heartbeat>, other: seq<Heartbeat>, me: string, name: string, hb: Heartbeat)
    requires multiset(hbs) == multiset(other) && Governs(other, me, name, hb)
    ensures Governs(hbs, me, name, hb)
  {
    assert forall h :: h in hbs <==> h in multiset(hbs);
    assert forall h :: h in other <==> h in multiset(other);
  }

  /** Every order of the heartbeats gives this name the same route. */
  ghost predicate OneRoute(hbs: seq<Heartbeat>, me: string, name: string) {
    forall a, b, k, l |
      multiset(a) == multiset(hbs) && multiset(b) == multiset(hbs)
      && Governor(Listed(a, me, name), k) && Governor(Listed(b, me, name), l) ::
      Served(Listed(a, me, name)[k].route) == Served(Listed(b, me, name)[l].route)
  }

  lemma SettledHasOneRoute(hbs: seq<Heartbeat>, me: string, name: string)
    requires Settled(hbs, me, name)
    ensures OneRoute(hbs, me, name)
  {
    forall a, b, k, l |
      multiset(a) == multiset(hbs) && multiset(b) == multiset(hbs)
      && Governor(Listed(a, me, name), k) && Governor(Listed(b, me, name), l)
      ensures Served(Listed(a, me, name)[k].route) == Served(Listed(b, me, name)[l].route)
    {
      var x := GovernorGoverns(a, me, name, k);
      var y := GovernorGoverns(b, me, name, l);
      GovernsElsewhere(hbs, a, me, name, x);
      GovernsElsewhere(hbs, b, me, name, y);
    }
  }

  /** A heartbeat that governs does so from the front. */
  lemma LeadFromTheFront(hbs: seq<Heartbeat>, me: string, name: string, hb: Heartbeat) returns (order: seq<Heartbeat>)
    requires Governs(hbs, me, name, hb)
    ensures multiset(order) == multiset(hbs) && Governor(Listed(order, me, name), 0)
    ensures Served(Listed(order, me, name)[0].route) == Leading(hb, me, name)
  {
    var i :| 0 <= i < |hbs| && hbs[i] == hb;
    order := [hb] + (hbs[..i] + hbs[i + 1..]);
    assert hbs == hbs[..i] + [hb] + hbs[i + 1..];
    assert multiset(order) == multiset(hbs);
    GovernsElsewhere(order, hbs, me, name, hb);
    ListedFront(hb, order[1..], me, name);
    assert order == [hb] + order[1..];
    var os, block := Listed(order, me, name), BlockOf(hb, me, name);
    assert os[0] == block[0] && block[0] in block;
    forall j | 0 <= j < |os| ensures !Better(os[j].hb.device, hb.device) {
      assert os[j] in os;
      ListedMembers(order, me, name, os[j]);
      assert os[j] in BlockOf(os[j].hb, me, name);
    }
  }

  lemma ListedSnoc(before: seq<Heartbeat>, hb: Heartbeat, me: string, name: string)
    ensures Listed(before + [hb], me, name) == Listed(before, me, name) + BlockOf(hb, me, name)
  {
    assert (before + [hb])[..|before|] == before;
  }

  lemma Regroup(a: seq<Offer>, b: seq<Offer>, c: seq<Offer>)
    ensures (a + b) + c == a + (b + c)
  {
  }

  lemma {:induction false} ListedFront(hb: Heartbeat, rest: seq<Heartbeat>, me: string, name: string)
    ensures Listed([hb] + rest, me, name) == BlockOf(hb, me, name) + Listed(rest, me, name)
    decreases |rest|
  {
    if rest == [] {
      ListedSnoc([], hb, me, name);
      assert [] + [hb] == [hb] && [hb] + rest == [hb];
    } else {
      var before, last := rest[..|rest| - 1], rest[|rest| - 1];
      ListedFront(hb, before, me, name);
      ListedSnoc([hb] + before, last, me, name);
      Regroup(BlockOf(hb, me, name), Listed(before, me, name), BlockOf(last, me, name));
      assert [hb] + rest == ([hb] + before) + [last];
    }
  }

  /** The order of the heartbeats cannot show in a name's route exactly when it is settled. */
  lemma OneRouteExactlyWhenSettled(hbs: seq<Heartbeat>, me: string, name: string)
    ensures OneRoute(hbs, me, name) <==> Settled(hbs, me, name)
  {
    if Settled(hbs, me, name) {
      SettledHasOneRoute(hbs, me, name);
    }
    if OneRoute(hbs, me, name) {
      forall a, b | Governs(hbs, me, name, a) && Governs(hbs, me, name, b)
        ensures Leading(a, me, name) == Leading(b, me, name)
      {
        var x := LeadFromTheFront(hbs, me, name, a);
        var y := LeadFromTheFront(hbs, me, name, b);
      }
    }
  }

  // ----- the targets do not depend on the order either

  /** How often a target comes up, heartbeat by heartbeat. */
  function Tally(hbs: seq<Heartbeat>, me: string, name: string, x: Target): nat {
    if hbs == [] then 0
    else Tally(hbs[..|hbs| - 1], me, name, x) + Count(BlockOf(hbs[|hbs| - 1], me, name), x)
  }

  lemma {:induction false} TallyCounts(hbs: seq<Heartbeat>, me: string, name: string, x: Target)
    ensures Tally(hbs, me, name, x) == Count(Listed(hbs, me, name), x)
  {
    if hbs != [] {
      var n := |hbs| - 1;
      TallyCounts(hbs[..n], me, name, x);
      CountAppend(Listed(hbs[..n], me, name), BlockOf(hbs[n], me, name), x);
    }
  }

  lemma {:induction false} TallyAppend(a: seq<Heartbeat>, b: seq<Heartbeat>, me: string, name: string, x: Target)
    ensures Tally(a + b, me, name, x) == Tally(a, me, name, x) + Tally(b, me, name, x)
    decreases |b|
  {
    if b == [] {
      assert a + b == a;
    } else {
      var n := |b| - 1;
      assert (a + b)[..|a + b| - 1] == a + b[..n];
      TallyAppend(a, b[..n], me, name, x);
    }
  }

  /** Taking one heartbeat out. */
  lemma TallyWithout(hbs: seq<Heartbeat>, i: int, me: string, name: string, x: Target)
    requires 0 <= i < |hbs|
    ensures Tally(hbs, me, name, x)
            == Tally(hbs[..i] + hbs[i + 1..], me, name, x) + Tally([hbs[i]], me, name, x)
  {
    var front, one, back := hbs[..i], [hbs[i]], hbs[i + 1..];
    assert hbs == front + (one + back);
    TallyAppend(front, one + back, me, name, x);
    TallyAppend(one, back, me, name, x);
    TallyAppend(front, back, me, name, x);
  }

  lemma TallyOne(hb: Heartbeat, me: string, name: string, x: Target)
    ensures Tally([hb], me, name, x) == Count(BlockOf(hb, me, name), x)
  {
    assert [hb][..0] == [];
  }

  lemma TallyLast(hbs: seq<Heartbeat>, me: string, name: string, x: Target)
    requires hbs != []
    ensures Tally(hbs, me, name, x) == Tally(hbs[..|hbs| - 1], me, name, x) + Tally([hbs[|hbs| - 1]], me, name, x)
  {
    var n := |hbs| - 1;
    TallyOne(hbs[n], me, name, x);
  }

  lemma SameRest(a: multiset<Heartbeat>, b: multiset<Heartbeat>, hb: Heartbeat)
    requires a + multiset{hb} == b + multiset{hb}
    ensures a == b
  {
    assert a == (a + multiset{hb}) - multiset{hb};
    assert b == (b + multiset{hb}) - multiset{hb};
  }

  lemma TakeOut(a: seq<Heartbeat>, b: seq<Heartbeat>) returns (i: int, rest: seq<Heartbeat>)
    requires a != [] && multiset(a) == multiset(b)
    ensures 0 <= i < |b| && b[i] == a[|a| - 1] && rest == b[..i] + b[i + 1..]
    ensures multiset(a[..|a| - 1]) == multiset(rest)
  {
    var hb := a[|a| - 1];
    assert hb in multiset(a);
    i :| 0 <= i < |b| && b[i] == hb;
    assert a == a[..|a| - 1] + [hb];
    assert b == b[..i] + [hb] + b[i + 1..];
    assert multiset(a) == multiset(a[..|a| - 1]) + multiset{hb};
    rest := b[..i] + b[i + 1..];
    SameRest(multiset(a[..|a| - 1]), multiset(rest), hb);
  }

  lemma {:induction false} SameTally(a: seq<Heartbeat>, b: seq<Heartbeat>, me: string, name: string, x: Target)
    requires multiset(a) == multiset(b)
    ensures Tally(a, me, name, x) == Tally(b, me, name, x)
    decreases |a|
  {
    if a == [] {
      assert |multiset(b)| == |b|;
      assert b == [];
    } else {
      var i, rest := TakeOut(a, b);
      SameTally(a[..|a| - 1], rest, me, name, x);
      TallyWithout(b, i, me, name, x);
      TallyLast(a, me, name, x);
    }
  }

  /** Whatever the order of the heartbeats, a name has the same targets. */
  lemma SameTargets(a: seq<Heartbeat>, b: seq<Heartbeat>, me: string, name: string, x: Target)
    requires multiset(a) == multiset(b)
    ensures Count(Listed(a, me, name), x) == Count(Listed(b, me, name), x)
  {
    SameTally(a, b, me, name, x);
    TallyCounts(a, me, name, x);
    TallyCounts(b, me, name, x);
  }

  /** Two merges of the same heartbeats, in any two orders, have the same names; under each, the same
      targets; and where the name is settled, the same route. */
  lemma OrderDoesNotShow(ts: seq<Tunnel>, us: seq<Tunnel>, a: seq<Heartbeat>, b: seq<Heartbeat>, me: string, i: int)
    returns (j: int)
    requires Merged(ts, a, me) && Merged(us, b, me) && multiset(a) == multiset(b) && 0 <= i < |ts|
    ensures 0 <= j < |us| && us[j].route.name == ts[i].route.name
    ensures multiset(us[j].targets) == multiset(ts[i].targets)
    ensures Settled(a, me, ts[i].route.name) ==> us[j].route == ts[i].route
  {
    var name := ts[i].route.name;
    var os, ps := Listed(a, me, name), Listed(b, me, name);
    assert TunnelOk(ts[i], a, me);
    assert multiset(Targets(os)) == multiset(Targets(ps)) by {
      forall x ensures multiset(Targets(os))[x] == multiset(Targets(ps))[x] {
        SameTargets(a, b, me, name, x);
      }
    }
    assert |multiset(Targets(os))| == |os| && |multiset(Targets(ps))| == |ps|;
    assert HasName(us, name);
    j :| 0 <= j < |us| && us[j].route.name == name;
    assert TunnelOk(us[j], b, me);
    if Settled(a, me, name) {
      SettledHasOneRoute(a, me, name);
    }
  }

  lemma OnlyRoute(hb: Heartbeat, r: Route, me: string, name: string)
    requires hb.tunnels == [r] && Wanted(r, me, name)
    ensures BlockOf(hb, me, name) == [Offer(hb, r)]
  {
    assert [r][..0] == [];
    assert Block(hb, [r][..0], me, name) == [];
    assert Block(hb, [r], me, name) == Block(hb, [r][..0], me, name) + [Offer(hb, [r][0])];
  }

  /** Two unnamed advertisers do flap: each order has its own route. */
  lemma UnnamedFlap() returns (hbs: seq<Heartbeat>)
    ensures |hbs| == 2 && hbs[0].device == hbs[1].device == "" && !OneRoute(hbs, "me", "n")
  {
    var r := Route("n", ANY, "t", "", false);
    var s := r.(config := "c");
    var a, b := Heartbeat("", 0.0, 0.0, false, [r]), Heartbeat("", 0.0, 0.0, false, [s]);
    OnlyRoute(a, r, "me", "n");
    OnlyRoute(b, s, "me", "n");
    hbs := [a, b];
    assert Governs(hbs, "me", "n", a) && Governs(hbs, "me", "n", b);
    assert Leading(a, "me", "n").config == "" && Leading(b, "me", "n").config == "c";
    assert !Settled(hbs, "me", "n");
    OneRouteExactlyWhenSettled(hbs, "me", "n");
  }
}
