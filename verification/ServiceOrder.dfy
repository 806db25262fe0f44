/**
 The start order of a blueprint's services: passes over the remaining services, in
 whatever order the map yields them, each pass placing those whose dependencies have
 all been placed.
 */
module ServiceOrder {

  /** The dependencies a service declares, with their conditions; a blueprint may leave them out. */
  datatype Declared = None | Some(conditions: map<string, string>)

  /** A service: the name others depend on, what it declares, its network mode. */
  datatype Service = Service(name: string, dependsOn: Declared, networkMode: string)

  const CONTAINER_PREFIX: string := "container:"

  predicate SharesNetwork(s: Service) {
    CONTAINER_PREFIX <= s.networkMode
  }

  /** The declared dependencies, and the container whose network the service shares, if any. */
  function Dependencies(s: Service): map<string, string> {
    var declared := if s.dependsOn.None? then map[] else s.dependsOn.conditions;
    if SharesNetwork(s) then declared[s.networkMode[|CONTAINER_PREFIX|..] := "service_started"] else declared
  }

  /** The service as it is handed back: the shared container is written into the very map the service
      declares, where there is one. */
  function Placed(s: Service): Service {
    if s.dependsOn.None? then s else s.(dependsOn := Some(Dependencies(s)))
  }

  predicate NeedsRunning(condition: string) {
    condition == "service_healthy" || condition == "service_started"
  }

  predicate Started(order: seq<Service>, dependency: string) {
    exists i :: 0 <= i < |order| && order[i].name == dependency
  }

  predicate Ready(order: seq<Service>, s: Service) {
    forall d | d in Dependencies(s) :: Started(order, d)
  }

  // ----- what an order is

  ghost function Services(m: map<string, Service>, keys: seq<string>): seq<Service>
    requires forall i | 0 <= i < |keys| :: keys[i] in m
  {
    seq(|keys|, i requires 0 <= i < |keys| => Placed(m[keys[i]]))
  }

  predicate Distinct(keys: seq<string>) {
    forall i, j | 0 <= i < j < |keys| :: keys[i] != keys[j]
  }

  /** These distinct keys of the map, in this order, put every service after its dependencies. */
  ghost predicate Respects(m: map<string, Service>, keys: seq<string>) {
    && Distinct(keys)
    && (forall i | 0 <= i < |keys| :: keys[i] in m)
    && (forall i | 0 <= i < |keys| :: Ready(Services(m, keys)[..i], m[keys[i]]))
  }

  /** And they are all of the map's keys. */
  ghost predicate Orders(m: map<string, Service>, keys: seq<string>) {
    Respects(m, keys) && forall k | k in m :: k in keys
  }

  ghost predicate Orderable(m: map<string, Service>) {
    exists keys :: Orders(m, keys)
  }

  /** Some service waits for another one to be up. */
  ghost predicate Waits(m: map<string, Service>) {
    exists k :: k in m && WaitsFor(m[k])
  }

  ghost predicate WaitsFor(s: Service) {
    exists d :: d in Dependencies(s) && NeedsRunning(Dependencies(s)[d])
  }

  // ----- the same, in terms of what a blueprint says

  /** The service names this one: among its declared dependencies, or as the container whose network it
      shares. */
  predicate NamesService(s: Service, d: string) {
    (s.dependsOn.Some? && d in s.dependsOn.conditions) || s.networkMode == "container:" + d
  }

  /** These are all keys of the map, each once, and every service comes after all that it names. */
  ghost predicate GoodOrder(m: map<string, Service>, keys: seq<string>) {
    && (forall i, j | 0 <= i < j < |keys| :: keys[i] != keys[j])
    && (forall i | 0 <= i < |keys| :: keys[i] in m)
    && (forall k | k in m :: k in keys)
    && (forall i, d | 0 <= i < |keys| && NamesService(m[keys[i]], d) :: NamedBefore(m, keys, i, d))
  }

  ghost predicate NamedBefore(m: map<string, Service>, keys: seq<string>, i: int, d: string)
    requires 0 <= i <= |keys| && forall j | 0 <= j < |keys| :: keys[j] in m
  {
    exists j :: 0 <= j < i && m[keys[j]].name == d
  }

  /** The service is handed back as it was, with the shared container among the dependencies it declares,
      if it declares any. */
  ghost predicate HandedBack(r: Service, s: Service) {
    && r.name == s.name && r.networkMode == s.networkMode && r.dependsOn.Some? == s.dependsOn.Some?
    && (s.dependsOn.Some? ==>
          && (forall d :: d in r.dependsOn.conditions <==> NamesService(s, d))
          && (forall d | d in r.dependsOn.conditions ::
                r.dependsOn.conditions[d] ==
                if s.networkMode == "container:" + d then "service_started" else s.dependsOn.conditions[d]))
  }

  /** Some service shares a network, or waits for another to be started or healthy. */
  ghost predicate SomeMustRun(m: map<string, Service>) {
    exists k :: k in m && MustRunFirst(m[k])
  }

  ghost predicate MustRunFirst(s: Service) {
    || "container:" <= s.networkMode
    || (s.dependsOn.Some? && exists d :: d in s.dependsOn.conditions && Waiting(s.dependsOn.conditions[d]))
  }

  predicate Waiting(condition: string) {
    condition == "service_started" || condition == "service_healthy"
  }

  lemma Shares(s: Service, d: string)
    ensures s.networkMode == "container:" + d <==> SharesNetwork(s) && s.networkMode[|CONTAINER_PREFIX|..] == d
  {
    assert |CONTAINER_PREFIX| == 10;
  }

  lemma DependenciesAreNames(s: Service, d: string)
    ensures d in Dependencies(s) <==> NamesService(s, d)
    ensures d in Dependencies(s) ==>
              Dependencies(s)[d] ==
              if s.networkMode == "container:" + d then "service_started" else s.dependsOn.conditions[d]
  {
    Shares(s, d);
  }

  lemma PlacedIsHandedBack(s: Service)
    ensures HandedBack(Placed(s), s)
  {
    forall d ensures d in Dependencies(s) <==> NamesService(s, d) {
      DependenciesAreNames(s, d);
    }
    forall d | d in Dependencies(s)
      ensures Dependencies(s)[d] ==
              if s.networkMode == "container:" + d then "service_started" else s.dependsOn.conditions[d]
    {
      DependenciesAreNames(s, d);
    }
  }

  lemma StartedIsNamedBefore(m: map<string, Service>, keys: seq<string>, i: int, d: string)
    requires 0 <= i <= |keys| && forall j | 0 <= j < |keys| :: keys[j] in m
    ensures Started(Services(m, keys)[..i], d) <==> NamedBefore(m, keys, i, d)
  {
    var order := Services(m, keys);
    forall j | 0 <= j < |keys| ensures order[j].name == m[keys[j]].name {
    }
    if NamedBefore(m, keys, i, d) {
      var j :| 0 <= j < i && m[keys[j]].name == d;
      assert order[..i][j].name == d;
    }
  }

  lemma ReadyIsNamed(m: map<string, Service>, keys: seq<string>, i: int)
    requires 0 <= i < |keys| && forall j | 0 <= j < |keys| :: keys[j] in m
    ensures Ready(Services(m, keys)[..i], m[keys[i]]) <==>
            forall d | NamesService(m[keys[i]], d) :: NamedBefore(m, keys, i, d)
  {
    forall d ensures (d in Dependencies(m[keys[i]]) <==> NamesService(m[keys[i]], d))
                     && (Started(Services(m, keys)[..i], d) <==> NamedBefore(m, keys, i, d)) {
      DependenciesAreNames(m[keys[i]], d);
      StartedIsNamedBefore(m, keys, i, d);
    }
  }

  lemma OrdersIsGood(m: map<string, Service>, keys: seq<string>)
    ensures Orders(m, keys) <==> GoodOrder(m, keys)
  {
    if forall i | 0 <= i < |keys| :: keys[i] in m {
      forall i | 0 <= i < |keys|
        ensures Ready(Services(m, keys)[..i], m[keys[i]]) <==>
                forall d | NamesService(m[keys[i]], d) :: NamedBefore(m, keys, i, d)
      {
        ReadyIsNamed(m, keys, i);
      }
    }
  }

  lemma WaitsForIsMustRun(s: Service)
    ensures WaitsFor(s) <==> MustRunFirst(s)
  {
    if WaitsFor(s) {
      var d :| d in Dependencies(s) && NeedsRunning(Dependencies(s)[d]);
      DependenciesAreNames(s, d);
      Shares(s, d);
    }
    if MustRunFirst(s) {
      if SharesNetwork(s) {
        var d := s.networkMode[|CONTAINER_PREFIX|..];
        assert d in Dependencies(s) && NeedsRunning(Dependencies(s)[d]);
      } else {
        var d :| d in s.dependsOn.conditions && Waiting(s.dependsOn.conditions[d]);
        assert d in Dependencies(s) && NeedsRunning(Dependencies(s)[d]);
      }
    }
  }

  // ----- one service

  /** Look the dependencies up among the started services, stopping at the first that is missing. */
  method CheckDependencies(s: Service, order: seq<Service>, flag: bool) returns (all: bool, must: bool)
    ensures all == Ready(order, s)
    ensures must ==> flag || WaitsFor(s)
    ensures flag || (all && WaitsFor(s)) ==> must
  {
    var deps := Dependencies(s);
    var left := deps.Keys;
    must := flag;
    while left != {}
      invariant left <= deps.Keys
      invariant forall d | d in deps && d !in left :: Started(order, d) && (NeedsRunning(deps[d]) ==> must)
      invariant must ==> flag || WaitsFor(s)
      invariant flag ==> must
      decreases |left|
    {
      var d :| d in left;
      left := left - {d};
      if !Started(order, d) {
        return false, must;
      }
      if NeedsRunning(deps[d]) {
        must := true;
      }
    }
    all := true;
  }

  // ----- the whole

  /** Placed so far: a respectful prefix, everything else still to do. */
  ghost predicate Progress(m: map<string, Service>, keys: seq<string>, left: map<string, Service>) {
    && Respects(m, keys)
    && (forall k | k in left :: k in m && left[k] == m[k] && k !in keys)
    && (forall k | k in m :: k in left || k in keys)
  }

  /** The flag is raised by waiting services alone, and by every one that has been placed. */
  ghost predicate FlagOk(m: map<string, Service>, keys: seq<string>, must: bool) {
    && (must ==> Waits(m))
    && (forall i | 0 <= i < |keys| && keys[i] in m && WaitsFor(m[keys[i]]) :: must)
  }

  lemma Place(m: map<string, Service>, keys: seq<string>, left: map<string, Service>, name: string)
    requires Progress(m, keys, left) && name in left && Ready(Services(m, keys), left[name])
    ensures Progress(m, keys + [name], left - {name})
    ensures Services(m, keys + [name]) == Services(m, keys) + [Placed(left[name])]
  {
    var keys' := keys + [name];
    assert Services(m, keys') == Services(m, keys) + [Placed(m[name])];
    forall i | 0 <= i < |keys'| ensures Ready(Services(m, keys')[..i], m[keys'[i]]) {
      assert Services(m, keys')[..i] == Services(m, keys)[..i];
      if i == |keys| {
        assert Services(m, keys)[..i] == Services(m, keys);
      }
    }
  }

  /** In any order of the whole map, the first service that is left could be placed next. */
  lemma {:induction false} FirstLeft(m: map<string, Service>, keys: seq<string>, left: map<string, Service>, other: seq<string>, i: nat)
    returns (k: string)
    requires Progress(m, keys, left) && Orders(m, other) && i < |other| && other[i] in left
    ensures k in left && Ready(Services(m, keys), left[k])
    decreases i
  {
    if j :| 0 <= j < i && other[j] in left {
      k := FirstLeft(m, keys, left, other, j);
    } else {
      k := other[i];
      forall d | d in Dependencies(m[k]) ensures Started(Services(m, keys), d) {
        EarlierIsPlaced(m, keys, left, other, i, d);
      }
    }
  }

  lemma EarlierIsPlaced(m: map<string, Service>, keys: seq<string>, left: map<string, Service>, other: seq<string>, i: nat, d: string)
    requires Progress(m, keys, left) && Orders(m, other) && i < |other|
    requires forall j | 0 <= j < i :: other[j] !in left
    requires d in Dependencies(m[other[i]])
    ensures Started(Services(m, keys), d)
  {
    assert Started(Services(m, other)[..i], d);
    var j :| 0 <= j < i && Services(m, other)[..i][j].name == d;
    assert other[j] in m;
    var p :| 0 <= p < |keys| && keys[p] == other[j];
    assert Services(m, keys)[p].name == d;
  }

  /** If what is left can none of it be placed, nothing orders the map. */
  lemma StuckMeansUnorderable(m: map<string, Service>, keys: seq<string>, left: map<string, Service>)
    requires Progress(m, keys, left) && left != map[]
    requires forall k | k in left :: !Ready(Services(m, keys), left[k])
    ensures !Orderable(m)
  {
    if Orderable(m) {
      var other :| Orders(m, other);
      var k :| k in left;
      var i :| 0 <= i < |other| && other[i] == k;
      var first := FirstLeft(m, keys, left, other, i);
    }
  }

  /** One pass over the remaining services in an arbitrary order. */
  method Pass(m: map<string, Service>, left0: map<string, Service>, order0: seq<Service>, flag0: bool, ghost keys0: seq<string>)
    returns (left: map<string, Service>, order: seq<Service>, flag: bool, changed: bool, ghost keys: seq<string>)
    requires Progress(m, keys0, left0) && order0 == Services(m, keys0) && FlagOk(m, keys0, flag0)
    ensures Progress(m, keys, left) && order == Services(m, keys) && FlagOk(m, keys, flag)
    ensures changed ==> |left| < |left0|
    ensures !changed ==> left == left0 && keys == keys0 && forall k | k in left :: !Ready(order, left[k])
  {
    left, order, flag, changed, keys := left0, order0, flag0, false, keys0;
    var todo := left0.Keys;
    while todo != {}
      invariant todo <= left.Keys
      invariant Progress(m, keys, left) && order == Services(m, keys) && FlagOk(m, keys, flag)
      invariant |left| <= |left0| && (changed ==> |left| < |left0|)
      invariant !changed ==> left == left0 && keys == keys0 && forall k | k in left && k !in todo :: !Ready(order, left[k])
      decreases |todo|
    {
      var name :| name in todo;
      todo := todo - {name};
      var all;
      assert m[name] == left[name];
      all, flag := CheckDependencies(left[name], order, flag);
      if all {
        Place(m, keys, left, name);
        order := order + [Placed(left[name])];
        keys := keys + [name];
        SmallerMap(left, name);
        left := left - {name};
        changed := true;
      }
    }
  }

  lemma SmallerMap(m: map<string, Service>, k: string)
    requires k in m
    ensures |m - {k}| == |m| - 1 && (m - {k}).Keys == m.Keys - {k}
  {
    assert (m - {k}).Keys == m.Keys - {k};
  }

  lemma InBlueprintTerms(m: map<string, Service>)
    ensures Orderable(m) <==> exists keys :: GoodOrder(m, keys)
    ensures Waits(m) <==> SomeMustRun(m)
  {
    forall keys ensures Orders(m, keys) <==> GoodOrder(m, keys) {
      OrdersIsGood(m, keys);
    }
    forall k | k in m ensures WaitsFor(m[k]) <==> MustRunFirst(m[k]) {
      WaitsForIsMustRun(m[k]);
    }
  }

  lemma HandedBackAll(m: map<string, Service>, keys: seq<string>, order: seq<Service>)
    requires Orders(m, keys) && order == Services(m, keys)
    ensures exists ks :: GoodOrder(m, ks) && |order| == |ks|
                         && forall i | 0 <= i < |ks| :: HandedBack(order[i], m[ks[i]])
  {
    OrdersIsGood(m, keys);
    forall i | 0 <= i < |keys| ensures HandedBack(order[i], m[keys[i]]) {
      PlacedIsHandedBack(m[keys[i]]);
    }
  }

  lemma FlagIsWaits(m: map<string, Service>, keys: seq<string>, flag: bool)
    requires Orders(m, keys) && FlagOk(m, keys, flag)
    ensures flag <==> Waits(m)
  {
    if Waits(m) {
      var k :| k in m && WaitsFor(m[k]);
      var i :| 0 <= i < |keys| && keys[i] == k;
    }
  }

  /** The start order. It ends on every input; it succeeds exactly when some order respects all
      dependencies, returns one such order of exactly the given services, and raises the flag exactly
      when some service waits for another to be up, whatever order the map is walked in. */
  method ReOrderServices(m: map<string, Service>) returns (order: seq<Service>, mustStart: bool, ok: bool)
    ensures ok <==> exists keys :: GoodOrder(m, keys)
    ensures ok ==> exists keys :: GoodOrder(m, keys) && |order| == |keys|
                                  && forall i | 0 <= i < |keys| :: HandedBack(order[i], m[keys[i]])
    ensures mustStart <==> ok && SomeMustRun(m)
    ensures !ok ==> order == []
  {
    var left, flag := m, false;
    ghost var keys: seq<string> := [];
    order := [];
    while left != map[]
      invariant Progress(m, keys, left) && order == Services(m, keys) && FlagOk(m, keys, flag)
      decreases |left|
    {
      var changed;
      left, order, flag, changed, keys := Pass(m, left, order, flag, keys);
      if !changed {
        break;
      }
    }
    InBlueprintTerms(m);
    if left != map[] {
      StuckMeansUnorderable(m, keys, left);
      return [], false, false;
    }
    FlagIsWaits(m, keys, flag);
    HandedBackAll(m, keys, order);
    return order, flag, true;
  }
}
