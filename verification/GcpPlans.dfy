/** The create and cleanup command lists of the three GCP plans, reduced to the resources they make,
    need and remove, against a provider that refuses to delete what is still in use. */
module GcpPlans {
  import opened Prelude

  datatype Kind =
    | Network | Subnet | Firewall | Router | Address | Nat | Instance | Disk
    | Repository | ServiceAccount | ReaderBinding

  datatype Resource = Resource(kind: Kind, name: string)

  /** A create command makes its resources on top of the ones it needs. */
  datatype Create = Create(makes: set<Resource>, needs: set<Resource>)

  /** What is present, and who uses what. */
  datatype Cloud = Cloud(present: set<Resource>, uses: set<(Resource, Resource)>)

  /** Edges only join resources that are present. */
  predicate WellFormed(c: Cloud) {
    forall e | e in c.uses :: e.0 in c.present && e.1 in c.present
  }

  predicate CanCreate(c: Cloud, cmd: Create) {
    cmd.needs <= c.present && cmd.makes !! c.present
  }

  function Edges(cmd: Create): set<(Resource, Resource)> {
    set m, n | m in cmd.makes && n in cmd.needs :: (m, n)
  }

  function ApplyCreate(c: Cloud, cmd: Create): Cloud {
    if CanCreate(c, cmd) then Cloud(c.present + cmd.makes, c.uses + Edges(cmd)) else c
  }

  /** Something outside the removed set still uses a part of it. */
  predicate Blocked(c: Cloud, removes: set<Resource>) {
    exists e | e in c.uses :: e.1 in removes && e.0 !in removes
  }

  function ApplyDelete(c: Cloud, removes: set<Resource>): Cloud {
    if Blocked(c, removes) then c
    else Cloud(c.present - removes, set e | e in c.uses && e.0 !in removes && e.1 !in removes)
  }

  function RunCreates(c: Cloud, cmds: seq<Create>): Cloud
    decreases |cmds|
  {
    if cmds == [] then c else RunCreates(ApplyCreate(c, cmds[0]), cmds[1..])
  }

  function RunDeletes(c: Cloud, deletes: seq<set<Resource>>): Cloud
    decreases |deletes|
  {
    if deletes == [] then c else RunDeletes(ApplyDelete(c, deletes[0]), deletes[1..])
  }

  function Made(cmds: seq<Create>): set<Resource> {
    if cmds == [] then {} else cmds[0].makes + Made(cmds[1..])
  }

  function AllEdges(cmds: seq<Create>): set<(Resource, Resource)> {
    if cmds == [] then {} else Edges(cmds[0]) + AllEdges(cmds[1..])
  }

  function Removed(deletes: seq<set<Resource>>): set<Resource> {
    if deletes == [] then {} else deletes[0] + Removed(deletes[1..])
  }

  // ----- When a cleanup list recovers from any partial creation -----

  /** Nothing is deleted before everything that uses it: gone holds what is deleted already. */
  predicate Ordered(deletes: seq<set<Resource>>, edges: set<(Resource, Resource)>, gone: set<Resource>) {
    deletes == [] ||
    (&& (forall e | e in edges :: e.1 in deletes[0] ==> e.0 in gone + deletes[0])
     && Ordered(deletes[1..], edges, gone + deletes[0]))
  }

  lemma {:induction false} OrderedConcat(
    a: seq<set<Resource>>, b: seq<set<Resource>>, edges: set<(Resource, Resource)>, gone: set<Resource>)
    ensures Ordered(a + b, edges, gone) <==> Ordered(a, edges, gone) && Ordered(b, edges, gone + Removed(a))
    ensures Removed(a + b) == Removed(a) + Removed(b)
  {
    if a == [] {
      assert a + b == b && gone + Removed(a) == gone;
    } else {
      assert (a + b)[1..] == a[1..] + b;
      OrderedConcat(a[1..], b, edges, gone + a[0]);
      assert gone + a[0] + Removed(a[1..]) == gone + Removed(a);
    }
  }

  lemma {:induction false} OrderedShrinks(
    deletes: seq<set<Resource>>, edges: set<(Resource, Resource)>,
    fewer: set<(Resource, Resource)>, gone: set<Resource>)
    requires Ordered(deletes, edges, gone)
    requires forall e | e in fewer :: e in edges || e.1 !in Removed(deletes)
    ensures Ordered(deletes, fewer, gone)
  {
    if deletes != [] {
      OrderedShrinks(deletes[1..], edges, fewer, gone + deletes[0]);
    }
  }

  /** An ordered list removes everything it names. */
  lemma {:induction false} OrderedDeletesSucceed(c: Cloud, deletes: seq<set<Resource>>, gone: set<Resource>)
    requires WellFormed(c) && gone !! c.present && Ordered(deletes, c.uses, gone)
    ensures RunDeletes(c, deletes).present == c.present - Removed(deletes)
    ensures WellFormed(RunDeletes(c, deletes))
    decreases |deletes|
  {
    if deletes != [] {
      OrderedStep(c, deletes, gone);
      OrderedDeletesSucceed(ApplyDelete(c, deletes[0]), deletes[1..], gone + deletes[0]);
    }
  }

  /** The first delete of an ordered list is not refused, and the rest is ordered for what it leaves. */
  lemma OrderedStep(c: Cloud, deletes: seq<set<Resource>>, gone: set<Resource>)
    requires WellFormed(c) && gone !! c.present && Ordered(deletes, c.uses, gone) && deletes != []
    ensures !Blocked(c, deletes[0])
    ensures var next := ApplyDelete(c, deletes[0]);
            && WellFormed(next) && gone + deletes[0] !! next.present
            && Ordered(deletes[1..], next.uses, gone + deletes[0])
  {
    OrderedShrinks(deletes[1..], c.uses, ApplyDelete(c, deletes[0]).uses, gone + deletes[0]);
  }

  lemma {:induction false} CreatesAddOnlyTheirs(c: Cloud, cmds: seq<Create>)
    requires WellFormed(c)
    ensures var after := RunCreates(c, cmds);
            && WellFormed(after)
            && c.present <= after.present <= c.present + Made(cmds)
            && after.uses <= c.uses + AllEdges(cmds)
    decreases |cmds|
  {
    if cmds != [] {
      CreatesAddOnlyTheirs(ApplyCreate(c, cmds[0]), cmds[1..]);
    }
  }

  lemma {:induction false} PrefixMakesLess(cmds: seq<Create>, k: nat)
    requires k <= |cmds|
    ensures Made(cmds[..k]) <= Made(cmds) && AllEdges(cmds[..k]) <= AllEdges(cmds)
  {
    if k > 0 {
      assert cmds[..k][1..] == cmds[1..][..k - 1];
      PrefixMakesLess(cmds[1..], k - 1);
    }
  }

  /** Recovery.  Take any provider in which none of the plan's names exist, run any prefix of the
      create list (each command may even be refused), then run the whole cleanup list: what is left is
      exactly what was there before, provided the list is ordered and names what the creates make. */
  lemma RecoveryFromAnyPrefix(c: Cloud, cmds: seq<Create>, k: nat, deletes: seq<set<Resource>>)
    requires WellFormed(c) && k <= |cmds|
    requires Ordered(deletes, AllEdges(cmds), {}) && Removed(deletes) == Made(cmds)
    requires Made(cmds) !! c.present
    ensures RunDeletes(RunCreates(c, cmds[..k]), deletes).present == c.present
  {
    var partial := RunCreates(c, cmds[..k]);
    CreatesAddOnlyTheirs(c, cmds[..k]);
    PrefixMakesLess(cmds, k);
    OrderedShrinks(deletes, AllEdges(cmds), partial.uses, {});
    OrderedDeletesSucceed(partial, deletes, {});
  }

  /** Frame: whichever of the deletes fail, nothing outside their names is ever removed. */
  lemma {:induction false} DeletesTouchOnlyTheirs(c: Cloud, deletes: seq<set<Resource>>)
    ensures c.present - Removed(deletes) <= RunDeletes(c, deletes).present <= c.present
    decreases |deletes|
  {
    if deletes != [] {
      DeletesTouchOnlyTheirs(ApplyDelete(c, deletes[0]), deletes[1..]);
    }
  }

  // ----- Unrolling short lists -----

  lemma OneMore(cs: seq<Create>, c: Create)
    ensures Made([c] + cs) == c.makes + Made(cs) && AllEdges([c] + cs) == Edges(c) + AllEdges(cs)
  {
    assert ([c] + cs)[1..] == cs;
  }

  lemma OneMoreDelete(
    ds: seq<set<Resource>>, d: set<Resource>, edges: set<(Resource, Resource)>, gone: set<Resource>)
    ensures Removed([d] + ds) == d + Removed(ds)
    ensures Ordered([d] + ds, edges, gone) <==>
            (forall e | e in edges :: e.1 in d ==> e.0 in gone + d) && Ordered(ds, edges, gone + d)
  {
    assert ([d] + ds)[1..] == ds;
  }

  // ----- The public-route plan -----

  /** An instance and its boot disk, which share a name and are deleted together. */
  function HostOf(name: string): set<Resource> {
    {Resource(Instance, name), Resource(Disk, name)}
  }

  datatype RouteNames = RouteNames(network: string, subnet: string, dht: string, iap: string, instance: string)

  function RouteNamesOf(run: string): RouteNames {
    RouteNames(run + "-net", run + "-subnet", run + "-dht", run + "-iap", run + "-route")
  }

  function RouteCreates(n: RouteNames): seq<Create> {
    var network, subnet := Resource(Network, n.network), Resource(Subnet, n.subnet);
    [Create({network}, {}),
     Create({subnet}, {network}),
     Create({Resource(Firewall, n.dht)}, {network}),
     Create({Resource(Firewall, n.iap)}, {network}),
     Create(HostOf(n.instance), {network, subnet})]
  }

  function RouteCleanup(n: RouteNames): seq<set<Resource>> {
    [HostOf(n.instance),
     {Resource(Firewall, n.iap)},
     {Resource(Firewall, n.dht)},
     {Resource(Subnet, n.subnet)},
     {Resource(Network, n.network)}]
  }

  /** The names the six absence checks ask about. */
  function RouteChecked(n: RouteNames): seq<Resource> {
    [Resource(Instance, n.instance), Resource(Disk, n.instance), Resource(Firewall, n.dht),
     Resource(Firewall, n.iap), Resource(Subnet, n.subnet), Resource(Network, n.network)]
  }

  lemma RouteMakes(n: RouteNames)
    ensures Made(RouteCreates(n)) == Elements(RouteChecked(n))
    ensures forall e | e in AllEdges(RouteCreates(n)) ::
              || (e.1.kind == Network && e.0.kind != Network && e.0 in Elements(RouteChecked(n)))
              || (e.1.kind == Subnet && e.0 in HostOf(n.instance))
  {
    FiveCreates(RouteCreates(n));
  }

  lemma FiveCreates(cs: seq<Create>)
    requires |cs| == 5
    ensures Made(cs) == cs[0].makes + cs[1].makes + cs[2].makes + cs[3].makes + cs[4].makes
    ensures AllEdges(cs) == Edges(cs[0]) + Edges(cs[1]) + Edges(cs[2]) + Edges(cs[3]) + Edges(cs[4])
  {
    assert cs == [cs[0]] + ([cs[1]] + ([cs[2]] + ([cs[3]] + ([cs[4]] + []))));
    OneMore([], cs[4]);
    OneMore([cs[4]] + [], cs[3]);
    OneMore([cs[3]] + ([cs[4]] + []), cs[2]);
    OneMore([cs[2]] + ([cs[3]] + ([cs[4]] + [])), cs[1]);
    OneMore([cs[1]] + ([cs[2]] + ([cs[3]] + ([cs[4]] + []))), cs[0]);
  }

  /** The cleanup list recovers from any prefix of the create list, and the six absence checks ask
      about exactly the resources the plan can make. */
  lemma RoutePlanRecovers(n: RouteNames)
    ensures Ordered(RouteCleanup(n), AllEdges(RouteCreates(n)), {})
    ensures Removed(RouteCleanup(n)) == Made(RouteCreates(n)) == Elements(RouteChecked(n))
  {
    var ds, edges := RouteCleanup(n), AllEdges(RouteCreates(n));
    RouteMakes(n);
    assert ds == [ds[0]] + ([ds[1]] + ([ds[2]] + ([ds[3]] + ([ds[4]] + []))));
    OneMoreDelete([], ds[4], edges, {} + ds[0] + ds[1] + ds[2] + ds[3]);
    OneMoreDelete([ds[4]] + [], ds[3], edges, {} + ds[0] + ds[1] + ds[2]);
    OneMoreDelete([ds[3]] + ([ds[4]] + []), ds[2], edges, {} + ds[0] + ds[1]);
    OneMoreDelete([ds[2]] + ([ds[3]] + ([ds[4]] + [])), ds[1], edges, {} + ds[0]);
    OneMoreDelete([ds[1]] + ([ds[2]] + ([ds[3]] + ([ds[4]] + []))), ds[0], edges, {});
    assert Removed(ds) == ds[0] + ds[1] + ds[2] + ds[3] + ds[4];
    assert Removed(ds) == Elements(RouteChecked(n));
  }

  /** From whatever a route run left of its creates, its cleanup restores the provider. */
  lemma RouteRunRecovers(run: string, c: Cloud, k: nat)
    requires WellFormed(c) && k <= 5 && Elements(RouteChecked(RouteNamesOf(run))) !! c.present
    ensures var n := RouteNamesOf(run);
            RunDeletes(RunCreates(c, RouteCreates(n)[..k]), RouteCleanup(n)).present == c.present
  {
    RoutePlanRecovers(RouteNamesOf(run));
    RecoveryFromAnyPrefix(c, RouteCreates(RouteNamesOf(run)), k, RouteCleanup(RouteNamesOf(run)));
  }

  // ----- The private-cache plan -----

  const CACHE_REPOSITORY: Resource := Resource(Repository, "communityai-ghcr-cache")

  datatype CacheNames = CacheNames(account: string, network: string, subnet: string, iap: string, instance: string)

  function CacheNamesOf(run: string, account: string): CacheNames {
    CacheNames(account, run + "-net", run + "-subnet", run + "-iap", run + "-cache")
  }

  /** The builder's identity and its reader binding on the repository. */
  function IdentityCreates(n: CacheNames): seq<Create> {
    var identity := Resource(ServiceAccount, n.account);
    [Create({identity}, {}), Create({Resource(ReaderBinding, n.account)}, {CACHE_REPOSITORY, identity})]
  }

  /** The builder itself. */
  function HostCreates(n: CacheNames): seq<Create> {
    var network, subnet := Resource(Network, n.network), Resource(Subnet, n.subnet);
    [Create({network}, {}),
     Create({subnet}, {network}),
     Create({Resource(Firewall, n.iap)}, {network}),
     Create(HostOf(n.instance), {network, subnet, Resource(ServiceAccount, n.account)})]
  }

  /** The two service enablements that come first make no resource of the run. */
  function CacheCreates(n: CacheNames): seq<Create> {
    [Create({CACHE_REPOSITORY}, {})] + (IdentityCreates(n) + HostCreates(n))
  }

  function CacheCleanup(n: CacheNames): seq<set<Resource>> {
    [HostOf(n.instance), {Resource(ReaderBinding, n.account)}, {Resource(ServiceAccount, n.account)}]
    + [{Resource(Firewall, n.iap)}, {Resource(Subnet, n.subnet)}, {Resource(Network, n.network)}]
  }

  function CacheChecked(n: CacheNames): seq<Resource> {
    [Resource(Instance, n.instance), Resource(Disk, n.instance), Resource(Firewall, n.iap),
     Resource(Subnet, n.subnet), Resource(Network, n.network), Resource(ServiceAccount, n.account)]
  }

  function IdentityNames(n: CacheNames): set<Resource> {
    {Resource(ServiceAccount, n.account), Resource(ReaderBinding, n.account)}
  }

  function HostNames(n: CacheNames): set<Resource> {
    {Resource(Network, n.network), Resource(Subnet, n.subnet), Resource(Firewall, n.iap)} + HostOf(n.instance)
  }

  /** Everything the cache plan makes but the repository. */
  function CacheBuilder(n: CacheNames): set<Resource> {
    IdentityNames(n) + HostNames(n)
  }

  /** The absence checks ask about all of it but the reader binding. */
  lemma BuilderIsChecked(n: CacheNames)
    ensures CacheBuilder(n) == Elements(CacheChecked(n)) + {Resource(ReaderBinding, n.account)}
  {
  }

  /** Who may use what in the cache plan. */
  predicate CacheEdge(e: (Resource, Resource), n: CacheNames) {
    var host, binding := HostOf(n.instance), Resource(ReaderBinding, n.account);
    || (e.1.kind == Network && (e.0 in host || e.0 == Resource(Subnet, n.subnet) || e.0 == Resource(Firewall, n.iap)))
    || (e.1.kind == Subnet && e.0 in host)
    || (e.1.kind == ServiceAccount && (e.0 in host || e.0 == binding))
    || (e.1.kind == Repository && e.0 == binding)
  }

  lemma IdentityMakes(n: CacheNames)
    ensures Made(IdentityCreates(n)) == IdentityNames(n)
    ensures forall e | e in AllEdges(IdentityCreates(n)) :: CacheEdge(e, n)
  {
    var cs := IdentityCreates(n);
    assert cs == [cs[0]] + ([cs[1]] + []);
    OneMore([], cs[1]);
    OneMore([cs[1]] + [], cs[0]);
  }

  lemma HostMakes(n: CacheNames)
    ensures Made(HostCreates(n)) == HostNames(n)
    ensures forall e | e in AllEdges(HostCreates(n)) :: CacheEdge(e, n)
  {
    var cs := HostCreates(n);
    assert cs == [cs[0]] + ([cs[1]] + ([cs[2]] + ([cs[3]] + [])));
    OneMore([], cs[3]);
    OneMore([cs[3]] + [], cs[2]);
    OneMore([cs[2]] + ([cs[3]] + []), cs[1]);
    OneMore([cs[1]] + ([cs[2]] + ([cs[3]] + [])), cs[0]);
    assert Made(cs) == cs[0].makes + cs[1].makes + cs[2].makes + cs[3].makes;
  }

  lemma CacheMakes(n: CacheNames)
    ensures Made(CacheCreates(n)) == CacheBuilder(n) + {CACHE_REPOSITORY}
    ensures forall e | e in AllEdges(CacheCreates(n)) :: CacheEdge(e, n)
  {
    IdentityMakes(n);
    HostMakes(n);
    MadeConcat(IdentityCreates(n), HostCreates(n));
    OneMore(IdentityCreates(n) + HostCreates(n), Create({CACHE_REPOSITORY}, {}));
    assert Edges(Create({CACHE_REPOSITORY}, {})) == {};
  }

  lemma FirstHalfOrder(n: CacheNames, edges: set<(Resource, Resource)>)
    requires forall e | e in edges :: CacheEdge(e, n)
    ensures var ds := CacheCleanup(n)[..3];
            Ordered(ds, edges, {})
            && Removed(ds) ==
               HostOf(n.instance) + {Resource(ReaderBinding, n.account), Resource(ServiceAccount, n.account)}
  {
    var ds := CacheCleanup(n)[..3];
    assert ds == [ds[0]] + ([ds[1]] + ([ds[2]] + []));
    OneMoreDelete([], ds[2], edges, {} + ds[0] + ds[1]);
    OneMoreDelete([ds[2]] + [], ds[1], edges, {} + ds[0]);
    OneMoreDelete([ds[1]] + ([ds[2]] + []), ds[0], edges, {});
  }

  lemma SecondHalfOrder(n: CacheNames, edges: set<(Resource, Resource)>, gone: set<Resource>)
    requires forall e | e in edges :: CacheEdge(e, n)
    requires HostOf(n.instance) <= gone
    ensures var ds := CacheCleanup(n)[3..];
            Ordered(ds, edges, gone)
            && Removed(ds) == {Resource(Firewall, n.iap), Resource(Subnet, n.subnet), Resource(Network, n.network)}
  {
    var ds := CacheCleanup(n)[3..];
    assert ds == [ds[0]] + ([ds[1]] + ([ds[2]] + []));
    OneMoreDelete([], ds[2], edges, gone + ds[0] + ds[1]);
    OneMoreDelete([ds[2]] + [], ds[1], edges, gone + ds[0]);
    OneMoreDelete([ds[1]] + ([ds[2]] + []), ds[0], edges, gone);
  }

  /** Deleting the repository deletes the policy binding it carries. */
  function RepositoryDelete(n: CacheNames): set<Resource> {
    {CACHE_REPOSITORY, Resource(ReaderBinding, n.account)}
  }

  /** The builder cleanup removes everything but the repository, from any prefix; followed by the
      repository deletion it recovers everything. */
  lemma CachePlanRecovers(n: CacheNames)
    ensures Ordered(CacheCleanup(n), AllEdges(CacheCreates(n)), {}) && Removed(CacheCleanup(n)) == CacheBuilder(n)
    ensures Ordered(CacheCleanup(n) + [RepositoryDelete(n)], AllEdges(CacheCreates(n)), {})
    ensures Removed(CacheCleanup(n) + [RepositoryDelete(n)]) == Made(CacheCreates(n))
  {
    var ds, edges := CacheCleanup(n), AllEdges(CacheCreates(n));
    CacheMakes(n);
    FirstHalfOrder(n, edges);
    SecondHalfOrder(n, edges, {} + Removed(ds[..3]));
    OrderedConcat(ds[..3], ds[3..], edges, {});
    assert ds == ds[..3] + ds[3..];
    assert Removed(ds) == CacheBuilder(n);
    OneMoreDelete([], RepositoryDelete(n), edges, {} + Removed(ds));
    assert [RepositoryDelete(n)] + [] == [RepositoryDelete(n)];
    OrderedConcat(ds, [RepositoryDelete(n)], edges, {});
  }

  /** From whatever a cache run left of its creates, the builder cleanup and the deletion of the
      repository restore the provider. */
  lemma CacheRunRecovers(run: string, account: string, c: Cloud, k: nat)
    requires var n := CacheNamesOf(run, account);
             WellFormed(c) && k <= 7 && (CacheBuilder(n) + {CACHE_REPOSITORY}) !! c.present
    ensures var n := CacheNamesOf(run, account);
            RunDeletes(RunCreates(c, CacheCreates(n)[..k]), CacheCleanup(n) + [RepositoryDelete(n)]).present
            == c.present
  {
    var n := CacheNamesOf(run, account);
    CachePlanRecovers(n);
    CacheMakes(n);
    RecoveryFromAnyPrefix(c, CacheCreates(n), k, CacheCleanup(n) + [RepositoryDelete(n)]);
  }

  // ----- The qualification fleet plan -----

  /** One regional network of the fleet. */
  datatype Regional = Regional(subnet: string, router: string, gateway: string, address: string)

  function RegionalCreates(network: Resource, r: Regional): seq<Create> {
    var router, address := Resource(Router, r.router), Resource(Address, r.address);
    [Create({Resource(Subnet, r.subnet)}, {network}),
     Create({router}, {network}),
     Create({address}, {}),
     Create({Resource(Nat, r.gateway)}, {router, address})]
  }

  function RegionalCleanup(r: Regional): seq<set<Resource>> {
    [{Resource(Nat, r.gateway)}, {Resource(Router, r.router)},
     {Resource(Subnet, r.subnet)}, {Resource(Address, r.address)}]
  }

  function RegionalNames(r: Regional): set<Resource> {
    {Resource(Subnet, r.subnet), Resource(Router, r.router), Resource(Nat, r.gateway), Resource(Address, r.address)}
  }

  function AllRegionalCreates(network: Resource, rs: seq<Regional>): seq<Create> {
    if rs == [] then []
    else AllRegionalCreates(network, rs[..|rs| - 1]) + RegionalCreates(network, rs[|rs| - 1])
  }

  /** Regions are torn down in reverse. */
  function AllRegionalCleanup(rs: seq<Regional>): seq<set<Resource>> {
    if rs == [] then []
    else RegionalCleanup(rs[|rs| - 1]) + AllRegionalCleanup(rs[..|rs| - 1])
  }

  function AllRegionalNames(rs: seq<Regional>): set<Resource> {
    if rs == [] then {} else AllRegionalNames(rs[..|rs| - 1]) + RegionalNames(rs[|rs| - 1])
  }

  predicate DistinctRegions(rs: seq<Regional>) {
    forall i, j :: 0 <= i < j < |rs| ==> RegionalNames(rs[i]) !! RegionalNames(rs[j])
  }

  /** The gateway uses its own router and address; nothing else happens inside a region but that its
      subnet and router use the network. */
  predicate RegionalEdge(e: (Resource, Resource), network: Resource, r: Regional) {
    || (e.1 == network && e.0 in RegionalNames(r))
    || (e.0 == Resource(Nat, r.gateway) && (e.1 == Resource(Router, r.router) || e.1 == Resource(Address, r.address)))
  }

  lemma RegionMakes(network: Resource, r: Regional)
    ensures Made(RegionalCreates(network, r)) == RegionalNames(r)
    ensures forall e | e in AllEdges(RegionalCreates(network, r)) :: RegionalEdge(e, network, r)
  {
    var cs := RegionalCreates(network, r);
    assert cs == [cs[0]] + ([cs[1]] + ([cs[2]] + ([cs[3]] + [])));
    OneMore([], cs[3]);
    OneMore([cs[3]] + [], cs[2]);
    OneMore([cs[2]] + ([cs[3]] + []), cs[1]);
    OneMore([cs[1]] + ([cs[2]] + ([cs[3]] + [])), cs[0]);
    assert Made(cs) == cs[0].makes + cs[1].makes + cs[2].makes + cs[3].makes;
  }

  lemma {:induction false} MadeConcat(a: seq<Create>, b: seq<Create>)
    ensures Made(a + b) == Made(a) + Made(b) && AllEdges(a + b) == AllEdges(a) + AllEdges(b)
  {
    if a == [] {
      assert a + b == b;
    } else {
      assert (a + b)[1..] == a[1..] + b;
      MadeConcat(a[1..], b);
    }
  }

  lemma {:induction false} AllRegionsMake(network: Resource, rs: seq<Regional>)
    ensures Made(AllRegionalCreates(network, rs)) == AllRegionalNames(rs)
    ensures forall e | e in AllEdges(AllRegionalCreates(network, rs)) ::
              exists r | r in rs :: RegionalEdge(e, network, r)
  {
    if rs != [] {
      var n := |rs| - 1;
      AllRegionsMake(network, rs[..n]);
      RegionMakes(network, rs[n]);
      MadeConcat(AllRegionalCreates(network, rs[..n]), RegionalCreates(network, rs[n]));
      assert forall r :: r in rs[..n] ==> r in rs;
    }
  }

  /** Within a region: the gateway goes first, so its router and address are free; the subnet's hosts
      must be gone already. */
  lemma RegionOrdered(r: Regional, edges: set<(Resource, Resource)>, gone: set<Resource>)
    requires forall e | e in edges && e.1 in RegionalNames(r) ::
               || (e.0 == Resource(Nat, r.gateway) && (e.1.kind == Router || e.1.kind == Address))
               || (e.1.kind == Subnet && e.0 in gone)
    ensures Ordered(RegionalCleanup(r), edges, gone)
    ensures Removed(RegionalCleanup(r)) == RegionalNames(r)
  {
    var ds := RegionalCleanup(r);
    assert ds == [ds[0]] + ([ds[1]] + ([ds[2]] + ([ds[3]] + [])));
    OneMoreDelete([], ds[3], edges, gone + ds[0] + ds[1] + ds[2]);
    OneMoreDelete([ds[3]] + [], ds[2], edges, gone + ds[0] + ds[1]);
    OneMoreDelete([ds[2]] + ([ds[3]] + []), ds[1], edges, gone + ds[0]);
    OneMoreDelete([ds[1]] + ([ds[2]] + ([ds[3]] + [])), ds[0], edges, gone);
    assert Removed(ds) == ds[0] + ds[1] + ds[2] + ds[3];
  }

  lemma {:induction false} RegionNames(rs: seq<Regional>, x: Resource)
    requires x in AllRegionalNames(rs)
    ensures exists i :: 0 <= i < |rs| && x in RegionalNames(rs[i])
    ensures x.kind == Subnet || x.kind == Router || x.kind == Nat || x.kind == Address
  {
    var n := |rs| - 1;
    if x in RegionalNames(rs[n]) {
    } else {
      RegionNames(rs[..n], x);
      var i :| 0 <= i < n && x in RegionalNames(rs[..n][i]);
      assert rs[..n][i] == rs[i];
    }
  }

  /** In a fleet of distinct regions, a resource of region i is used inside region i only, or it is a
      subnet whose users are gone already. */
  predicate FleetEdge(e: (Resource, Resource), network: Resource, rs: seq<Regional>, gone: set<Resource>) {
    (e.1.kind == Subnet && e.0 in gone) || exists r | r in rs :: RegionalEdge(e, network, r)
  }

  lemma EdgeOfRegion(e: (Resource, Resource), network: Resource, rs: seq<Regional>, gone: set<Resource>, i: nat)
    requires network.kind == Network && DistinctRegions(rs) && i < |rs|
    requires FleetEdge(e, network, rs, gone) && e.1 in RegionalNames(rs[i])
    ensures (e.1.kind == Subnet && e.0 in gone) || RegionalEdge(e, network, rs[i])
  {
    if !(e.1.kind == Subnet && e.0 in gone) {
      var r :| r in rs && RegionalEdge(e, network, r);
      var j :| 0 <= j < |rs| && rs[j] == r;
      assert e.1 in RegionalNames(r);
    }
  }

  lemma {:induction false} RegionsOrdered(
    network: Resource, rs: seq<Regional>, edges: set<(Resource, Resource)>, gone: set<Resource>)
    requires network.kind == Network && DistinctRegions(rs)
    requires forall e | e in edges && e.1 in AllRegionalNames(rs) :: FleetEdge(e, network, rs, gone)
    ensures Ordered(AllRegionalCleanup(rs), edges, gone)
    ensures Removed(AllRegionalCleanup(rs)) == AllRegionalNames(rs)
  {
    if rs != [] {
      var n := |rs| - 1;
      forall e | e in edges && e.1 in RegionalNames(rs[n])
        ensures (e.1.kind == Subnet && e.0 in gone) || RegionalEdge(e, network, rs[n])
      {
        EdgeOfRegion(e, network, rs, gone, n);
      }
      RegionOrdered(rs[n], edges, gone);
      forall e | e in edges && e.1 in AllRegionalNames(rs[..n])
        ensures FleetEdge(e, network, rs[..n], gone + RegionalNames(rs[n]))
      {
        RegionNames(rs[..n], e.1);
        var i :| 0 <= i < n && e.1 in RegionalNames(rs[..n][i]);
        EdgeOfRegion(e, network, rs, gone, i);
        assert rs[..n][i] == rs[i];
      }
      RegionsOrdered(network, rs[..n], edges, gone + RegionalNames(rs[n]));
      OrderedConcat(RegionalCleanup(rs[n]), AllRegionalCleanup(rs[..n]), edges, gone);
    }
  }

  datatype Fleet = Fleet(network: string, firewall: string, regions: seq<Regional>)

  function FleetCreates(f: Fleet): seq<Create> {
    var network := Resource(Network, f.network);
    [Create({network}, {})] + AllRegionalCreates(network, f.regions)
      + [Create({Resource(Firewall, f.firewall)}, {network})]
  }

  function FleetCleanup(f: Fleet): seq<set<Resource>> {
    [{Resource(Firewall, f.firewall)}] + AllRegionalCleanup(f.regions) + [{Resource(Network, f.network)}]
  }

  /** One profile phase: its host on one region's subnet. */
  function PhaseCreate(f: Fleet, host: string, region: nat): Create
    requires region < |f.regions|
  {
    Create(HostOf(host), {Resource(Network, f.network), Resource(Subnet, f.regions[region].subnet)})
  }

  lemma FleetMakes(f: Fleet, host: string, region: nat)
    requires region < |f.regions|
    ensures var network, cs := Resource(Network, f.network), FleetCreates(f) + [PhaseCreate(f, host, region)];
            && Made(cs) == {network, Resource(Firewall, f.firewall)} + AllRegionalNames(f.regions) + HostOf(host)
            && AllEdges(cs) == AllEdges(AllRegionalCreates(network, f.regions))
                               + {(Resource(Firewall, f.firewall), network)} + Edges(PhaseCreate(f, host, region))
  {
    var network, firewall := Resource(Network, f.network), Resource(Firewall, f.firewall);
    var inner := AllRegionalCreates(network, f.regions);
    var first, last, phase := Create({network}, {}), Create({firewall}, {network}), PhaseCreate(f, host, region);
    AllRegionsMake(network, f.regions);
    MadeConcat([first] + inner + [last], [phase]);
    MadeConcat([first] + inner, [last]);
    OneMore(inner, first);
    OneMore([], last);
    OneMore([], phase);
    assert [last] + [] == [last] && [phase] + [] == [phase];
    assert Edges(first) == {} && Edges(last) == {(firewall, network)};
  }

  /** The fleet's cleanup list is ordered for any edges of its own kinds, once the hosts are gone. */
  lemma FleetCleanupOrder(f: Fleet, edges: set<(Resource, Resource)>, gone: set<Resource>)
    requires DistinctRegions(f.regions)
    requires var network := Resource(Network, f.network);
             forall e | e in edges ::
               || FleetEdge(e, network, f.regions, gone)
               || (e.1 == network && e.0 in gone + {Resource(Firewall, f.firewall)})
    ensures Ordered(FleetCleanup(f), edges, gone)
    ensures Removed(FleetCleanup(f)) ==
            {Resource(Network, f.network), Resource(Firewall, f.firewall)} + AllRegionalNames(f.regions)
  {
    var network, firewall := Resource(Network, f.network), Resource(Firewall, f.firewall);
    var ds, names := AllRegionalCleanup(f.regions), AllRegionalNames(f.regions);
    forall e | e in edges && e.1 in names ensures FleetEdge(e, network, f.regions, gone + {firewall}) {
      RegionNames(f.regions, e.1);
    }
    RegionsOrdered(network, f.regions, edges, gone + {firewall});
    forall e | e in edges && e.1 == network ensures e.0 in gone + {firewall} + names + {network} {
      if !(e.0 in gone + {firewall}) {
        var r :| r in f.regions && RegionalEdge(e, network, r);
        RegionIn(f.regions, r);
      }
    }
    OneMoreDelete([], {network}, edges, gone + {firewall} + names);
    assert [{network}] + [] == [{network}];
    OrderedConcat(ds, [{network}], edges, gone + {firewall});
    OneMoreDelete(ds + [{network}], {firewall}, edges, gone);
    assert FleetCleanup(f) == [{firewall}] + (ds + [{network}]);
  }

  lemma {:induction false} RegionIn(rs: seq<Regional>, r: Regional)
    requires r in rs
    ensures RegionalNames(r) <= AllRegionalNames(rs)
  {
    if r != rs[|rs| - 1] {
      assert r in rs[..|rs| - 1];
      RegionIn(rs[..|rs| - 1], r);
    }
  }

  lemma FleetEdges(f: Fleet, host: string, region: nat)
    requires region < |f.regions|
    ensures var network := Resource(Network, f.network);
            forall e | e in AllEdges(FleetCreates(f) + [PhaseCreate(f, host, region)]) ::
              && e.1 !in HostOf(host)
              && (|| FleetEdge(e, network, f.regions, {} + HostOf(host))
                  || (e.1 == network && e.0 in {} + HostOf(host) + {Resource(Firewall, f.firewall)}))
  {
    var network := Resource(Network, f.network);
    FleetMakes(f, host, region);
    AllRegionsMake(network, f.regions);
    forall e | e in AllEdges(FleetCreates(f) + [PhaseCreate(f, host, region)])
      ensures e.1 !in HostOf(host)
      ensures || FleetEdge(e, network, f.regions, {} + HostOf(host))
              || (e.1 == network && e.0 in {} + HostOf(host) + {Resource(Firewall, f.firewall)})
    {
      if e in Edges(PhaseCreate(f, host, region)) {
        PhaseEdge(f, host, region, e);
      } else if e in AllEdges(AllRegionalCreates(network, f.regions)) {
        assert exists r | r in f.regions :: RegionalEdge(e, network, r);
      }
    }
  }

  lemma PhaseEdge(f: Fleet, host: string, region: nat, e: (Resource, Resource))
    requires region < |f.regions| && e in Edges(PhaseCreate(f, host, region))
    ensures e.0 in HostOf(host) && (e.1 == Resource(Network, f.network) || e.1.kind == Subnet)
  {
  }

  /** At every moment of a one-host-at-a-time run, for any number of regions: the phase's own cleanup
      followed by the fleet's cleanup list recovers from any prefix of what has been created. */
  lemma FleetPlanRecovers(f: Fleet, host: string, region: nat)
    requires region < |f.regions| && DistinctRegions(f.regions)
    ensures var cs := FleetCreates(f) + [PhaseCreate(f, host, region)];
            var ds := [HostOf(host)] + FleetCleanup(f);
            Ordered(ds, AllEdges(cs), {}) && Removed(ds) == Made(cs)
  {
    var edges := AllEdges(FleetCreates(f) + [PhaseCreate(f, host, region)]);
    FleetMakes(f, host, region);
    FleetEdges(f, host, region);
    FleetCleanupOrder(f, edges, {} + HostOf(host));
    OneMoreDelete(FleetCleanup(f), HostOf(host), edges, {});
  }

  /** At any moment of the fleet's creation and of one profile phase, the phase's cleanup and the
      fleet's restore the provider. */
  lemma FleetRunRecovers(prefix: string, fallback: bool, host: string, region: nat, c: Cloud, k: nat)
    requires var f := FleetOf(prefix, fallback);
             && region < |f.regions| && k <= |FleetCreates(f)| + 1 && WellFormed(c)
             && Made(FleetCreates(f) + [PhaseCreate(f, host, region)]) !! c.present
    ensures var f := FleetOf(prefix, fallback);
            RunDeletes(RunCreates(c, (FleetCreates(f) + [PhaseCreate(f, host, region)])[..k]),
                       [HostOf(host)] + FleetCleanup(f)).present == c.present
  {
    var f := FleetOf(prefix, fallback);
    FleetRegionsAreDistinct(prefix, fallback);
    FleetPlanRecovers(f, host, region);
    RecoveryFromAnyPrefix(c, FleetCreates(f) + [PhaseCreate(f, host, region)], k, [HostOf(host)] + FleetCleanup(f));
  }

  // ----- The fleet plan as it is built -----

  function FleetRegions(prefix: string, fallback: bool): seq<Regional> {
    [Regional(prefix + "-subnet", prefix + "-router", prefix + "-nat", prefix + "-nat-ip")]
    + if fallback
      then [Regional(prefix + "-cuda-subnet", prefix + "-cuda-router", prefix + "-cuda-nat", prefix + "-cuda-nat-ip")]
      else []
  }

  function FleetOf(prefix: string, fallback: bool): Fleet {
    Fleet(prefix + "-net", prefix + "-iap", FleetRegions(prefix, fallback))
  }

  /** The primary and the fallback network share no resource, whatever the run is called. */
  lemma FleetRegionsAreDistinct(prefix: string, fallback: bool)
    ensures DistinctRegions(FleetRegions(prefix, fallback))
  {
    var rs := FleetRegions(prefix, fallback);
    if fallback {
      assert |rs[0].subnet| < |rs[1].subnet| && |rs[0].router| < |rs[1].router|;
      assert |rs[0].gateway| < |rs[1].gateway| && |rs[0].address| < |rs[1].address|;
    }
  }

  /** _gcp_plan's list building: one pass over the regions for the creates, one in reverse for the
      cleanup.  The result is the plan proved to recover. */
  method BuildFleetPlan(prefix: string, fallback: bool) returns (creates: seq<Create>, cleanup: seq<set<Resource>>)
    ensures creates == FleetCreates(FleetOf(prefix, fallback))
    ensures cleanup == FleetCleanup(FleetOf(prefix, fallback))
    ensures DistinctRegions(FleetOf(prefix, fallback).regions)
  {
    FleetRegionsAreDistinct(prefix, fallback);
    var network, firewall := Resource(Network, prefix + "-net"), Resource(Firewall, prefix + "-iap");
    var regions := FleetRegions(prefix, fallback);
    creates := [Create({network}, {})];
    for i := 0 to |regions|
      invariant creates == [Create({network}, {})] + AllRegionalCreates(network, regions[..i])
    {
      assert regions[..i + 1][..i] == regions[..i];
      creates := creates + RegionalCreates(network, regions[i]);
    }
    assert regions[..|regions|] == regions;
    creates := creates + [Create({firewall}, {network})];

    cleanup := [{firewall}];
    for i := |regions| downto 0
      invariant cleanup + AllRegionalCleanup(regions[..i]) == [{firewall}] + AllRegionalCleanup(regions)
    {
      assert regions[..i + 1][..i] == regions[..i];
      cleanup := cleanup + RegionalCleanup(regions[i]);
    }
    assert cleanup + [] == cleanup;
    cleanup := cleanup + [{network}];
  }
}
