/** The OpenContrail BGP VPN driver. It keeps each VPN record as a blob in
    the control plane's key-value store and turns record changes into
    route-target reference updates on each associated network's routing
    instance. */
module OpenContrail {
  import opened Records
  import opened RouteTargetNames
  import opened ControlPlane

  /** What `json.loads` makes of a stored value: a dictionary holding a
      'bgpvpn' entry, another dictionary, or something that is not a
      dictionary. */
  datatype Json = BgpvpnDoc(record: Bgpvpn) | OtherDict | NotADict

  /** A value of the key-value store: JSON text, or text that does not parse. */
  datatype Blob = Encoded(doc: Json) | Unparseable

  /** `json.loads`, which fails on text that does not parse. */
  function Parse(blob: Blob): Option<Json> {
    match blob
    case Encoded(doc) => Some(doc)
    case Unparseable => None
  }

  /** The VPN record held by a blob, if it parses to a dictionary with a
      'bgpvpn' entry. */
  function Decode(blob: Blob): (r: Option<Bgpvpn>)
    ensures r.Some? <==> Parse(blob).Some? && Parse(blob).value.BgpvpnDoc?
  {
    match Parse(blob)
    case Some(BgpvpnDoc(b)) => Some(b)
    case _ => None
  }

  /** The blob written by `kv_store('STORE', value={'bgpvpn': b})`. */
  function Stored(b: Bgpvpn): (blob: Blob)
    ensures Decode(blob) == Some(b)
  {
    Encoded(BgpvpnDoc(b))
  }

  /** A create request: the attributes of the new VPN. tenantId is None
      when the request has no 'tenant_id' key; an empty vpnType stands for
      a falsy 'type' value. */
  datatype CreateRequest = CreateRequest(
    tenantId: Option<string>,
    name: string,
    vpnType: string,
    routeTargets: seq<string>,
    importTargets: seq<string>,
    exportTargets: seq<string>,
    routeDistinguishers: seq<string>,
    autoAggregate: bool)

  /** `_get_tenant_id_for_create`: the requested tenant when there is one
      (an admin may name any tenant, other callers only their own), else the
      caller's tenant. */
  function TenantForCreate(ctx: Context, requested: Option<string>): (r: Result<string, Error>)
    ensures r.Failure? <==> !ctx.isAdmin && requested.Some? && requested.value != ctx.tenantId
    ensures r.Failure? ==> r.error == AdminRequired
    ensures r.Success? ==> r.value == requested.GetOr(ctx.tenantId)
    ensures r.Success? && !ctx.isAdmin ==> r.value == ctx.tenantId
  {
    if ctx.isAdmin && requested.Some? then Success(requested.value)
    else if requested.Some? && requested.value != ctx.tenantId then Failure(AdminRequired)
    else Success(ctx.tenantId)
  }

  /** The record `create_bgpvpn` stores under the fresh id, or the first
      check that fails: missing route targets, then an unsupported type,
      then route distinguishers, then the tenant. */
  function NewRecord(ctx: Context, req: CreateRequest, id: Uuid): (r: Result<Bgpvpn, Error>)
    ensures req.routeTargets == [] ==> r == Failure(MissingRouteTarget)
    ensures req.routeTargets != [] && req.vpnType != "" && req.vpnType != L3 ==>
      r == Failure(TypeNotSupported(req.vpnType))
    ensures req.routeTargets != [] && (req.vpnType == "" || req.vpnType == L3) && req.routeDistinguishers != [] ==>
      r == Failure(RDNotSupported)
    ensures req.routeTargets != [] && (req.vpnType == "" || req.vpnType == L3) && req.routeDistinguishers == [] ==>
      (r.Failure? <==> TenantForCreate(ctx, req.tenantId).Failure?) && (r.Failure? ==> r.error == AdminRequired)
    ensures r.Success? ==>
      && r.value.id == id
      && r.value.tenantId == TenantForCreate(ctx, req.tenantId).value
      && r.value.vpnType == L3
      && r.value.networks == []
      && r.value.name == req.name
      && r.value.routeTargets == req.routeTargets
      && r.value.importTargets == req.importTargets
      && r.value.exportTargets == req.exportTargets
      && r.value.routeDistinguishers == req.routeDistinguishers
      && r.value.autoAggregate == req.autoAggregate
  {
    if req.routeTargets == [] then Failure(MissingRouteTarget)
    else if req.vpnType != "" && req.vpnType != L3 then Failure(TypeNotSupported(req.vpnType))
    else if req.routeDistinguishers != [] then Failure(RDNotSupported)
    else match TenantForCreate(ctx, req.tenantId)
      case Failure(e) => Failure(e)
      case Success(tenant) =>
        Success(Bgpvpn(id, tenant, req.name, L3, req.routeTargets, req.importTargets,
                       req.exportTargets, req.routeDistinguishers, req.autoAggregate, []))
  }

  /** Whether `get_bgpvpns` lists record b for the blob: the blob decodes to
      b, b passes the filters, and the caller may see b. */
  predicate Listed(ctx: Context, filters: Filters, blob: Blob, b: Bgpvpn) {
    Decode(blob) == Some(b) && Matches(b, filters) && Visible(ctx, b)
  }

  /** Whether `get_bgpvpns` lists the record under a key at all. */
  predicate ListedKey(ctx: Context, filters: Filters, blob: Blob) {
    Decode(blob).Some? && Listed(ctx, filters, blob, Decode(blob).value)
  }

  /** r lists, in the order of keys, the record under each key of keys; keys
      holds each key of `seen` whose record is listed, once. */
  ghost predicate Listing(ctx: Context, filters: Filters, kv: map<Uuid, Blob>, seen: set<Uuid>,
                          r: seq<Bgpvpn>, keys: seq<Uuid>) {
    && |keys| == |r| && NoDuplicates(keys)
    && (forall i :: 0 <= i < |keys| ==> keys[i] in kv && Decode(kv[keys[i]]) == Some(r[i]))
    && (forall k :: k in keys <==> k in seen && k in kv && ListedKey(ctx, filters, kv[k]))
  }

  /** One more key of `get_bgpvpns`'s loop: the record under k is appended
      exactly when it is listed. */
  lemma ListedStep(ctx: Context, filters: Filters, kv: map<Uuid, Blob>, seen: set<Uuid>, k: Uuid,
                   r0: seq<Bgpvpn>, keys0: seq<Uuid>, r: seq<Bgpvpn>, keys: seq<Uuid>)
    requires k in kv && k !in seen
    requires Listing(ctx, filters, kv, seen, r0, keys0)
    requires if ListedKey(ctx, filters, kv[k]) then r == r0 + [Decode(kv[k]).value] && keys == keys0 + [k]
             else r == r0 && keys == keys0
    ensures Listing(ctx, filters, kv, seen + {k}, r, keys)
  {
    if ListedKey(ctx, filters, kv[k]) {
      assert k !in keys0;
      forall i | 0 <= i < |keys0| ensures keys[i] == keys0[i] && r[i] == r0[i] { }
    }
  }

  /** Moving one key from the keys still to visit to the keys seen keeps
      the two disjoint and their union, and counts one more key seen. */
  lemma MoveKey(rest: set<Uuid>, seen: set<Uuid>, k: Uuid)
    requires k in rest && rest !! seen
    ensures (rest - {k}) + (seen + {k}) == rest + seen && (rest - {k}) !! (seen + {k})
    ensures |seen + {k}| == |seen| + 1
  {
  }

  /** A listing holds exactly the listed records of the keys seen. */
  lemma ListingMembers(ctx: Context, filters: Filters, kv: map<Uuid, Blob>, seen: set<Uuid>,
                       r: seq<Bgpvpn>, keys: seq<Uuid>)
    requires Listing(ctx, filters, kv, seen, r, keys)
    ensures forall b :: b in r <==> exists k :: k in seen && k in kv && Listed(ctx, filters, kv[k], b)
  {
    forall b ensures b in r <==> exists k :: k in seen && k in kv && Listed(ctx, filters, kv[k], b) {
      if b in r {
        var i :| 0 <= i < |r| && r[i] == b;
        assert keys[i] in keys;
        assert keys[i] in seen && keys[i] in kv && Listed(ctx, filters, kv[keys[i]], b);
      }
      if exists k :: k in seen && k in kv && Listed(ctx, filters, kv[k], b) {
        var k :| k in seen && k in kv && Listed(ctx, filters, kv[k], b);
        assert k in keys;
        var i :| 0 <= i < |keys| && keys[i] == k;
        assert r[i] == b;
      }
    }
  }

  /** The orders in which `update_bgpvpn` reconciles networks: when the
      networks changed, each network of old − new once (removed) and each
      of new − old once (added); otherwise none. */
  predicate NetworkOrder(prior: Bgpvpn, merged: Bgpvpn, removed: seq<NetworkId>, added: seq<NetworkId>) {
    if NetworksKey in ChangedKeys(merged, prior) then
      && Enumerates(removed, Members(prior.networks) - Members(merged.networks))
      && Enumerates(added, Members(merged.networks) - Members(prior.networks))
    else removed == [] && added == []
  }

  /** The reconciliation `update_bgpvpn` performs: if the networks changed,
      DELETE for each removed network with the old record, then ADD for each
      added network with the merged record; else, if a route-target key
      changed, DELETE over all networks of the old record, then ADD over all
      networks of the merged record; else nothing. */
  function UpdatePlan(prior: Bgpvpn, merged: Bgpvpn, removed: seq<NetworkId>, added: seq<NetworkId>,
                      vns: map<NetworkId, VirtualNetwork>): Emission
  {
    var changed := ChangedKeys(merged, prior);
    if NetworksKey in changed then
      Then(FanoutEach(Delete, prior, removed, vns), FanoutEach(Add, merged, added, vns))
    else if RouteTargetKeys * changed != {} then
      Then(Fanout(Delete, prior, Targets(prior, ""), vns), Fanout(Add, merged, Targets(merged, ""), vns))
    else Emission([], None)
  }

  /** An update that changes nothing emits no call. */
  lemma UnchangedUpdateIsSilent(prior: Bgpvpn, removed: seq<NetworkId>, added: seq<NetworkId>,
                                vns: map<NetworkId, VirtualNetwork>)
    requires NetworkOrder(prior, prior, removed, added)
    ensures UpdatePlan(prior, prior, removed, added, vns) == Emission([], None)
  {
  }

  /** A network listed both before and after an update is not reconciled by
      the networks branch, whatever else the update changed. */
  lemma CommonNetworksUntouched(prior: Bgpvpn, merged: Bgpvpn, removed: seq<NetworkId>, added: seq<NetworkId>)
    requires NetworkOrder(prior, merged, removed, added)
    ensures forall n :: n in prior.networks && n in merged.networks ==> n !in removed && n !in added
  {
    if NetworksKey in ChangedKeys(merged, prior) {
      assert forall n :: n in removed ==> n in Members(removed);
      assert forall n :: n in added ==> n in Members(added);
    }
  }

  /** `list(s)` of a set: each member once, in an order the model leaves open. */
  method ListOf(s: set<NetworkId>) returns (r: seq<NetworkId>)
    ensures Enumerates(r, s)
  {
    r := [];
    var rest := s;
    while rest != {}
      invariant rest <= s
      invariant Members(r) == s - rest
      invariant NoDuplicates(r)
      decreases rest
    {
      var n :| n in rest;
      assert n !in r;
      r := r + [n];
      rest := rest - {n};
    }
  }

  lemma EnumeratesFew(s: seq<NetworkId>, x: NetworkId)
    ensures Enumerates(s, {}) ==> s == []
    ensures Enumerates(s, {x}) ==> s == [x]
  {
    forall i | 0 <= i < |s| ensures s[i] in Members(s) { }
    assert x in Members(s) ==> x in s;
    assert NoDuplicates(s) && |s| >= 2 ==> s[0] != s[1];
  }

  /** A single-network reconciliation is that network's emission. */
  lemma FanoutOne(op: Op, b: Bgpvpn, net: NetworkId, vns: map<NetworkId, VirtualNetwork>)
    ensures Fanout(op, b, [net], vns) == NetworkEmission(op, b, net, vns)
  {
    assert [net][..0] == [];
    assert [] + NetworkEmission(op, b, net, vns).calls == NetworkEmission(op, b, net, vns).calls;
  }

  /** The update `associate_network` makes (the network appended) changes the
      record and reconciles exactly that network with ADD. */
  lemma AppendPlan(b: Bgpvpn, net: NetworkId, removed: seq<NetworkId>, added: seq<NetworkId>,
                   vns: map<NetworkId, VirtualNetwork>)
    requires net != "" && net !in b.networks
    requires NetworkOrder(b, b.(networks := b.networks + [net]), removed, added)
    ensures var extended := b.(networks := b.networks + [net]);
      extended != b && UpdatePlan(b, extended, removed, added, vns) == NetworkEmission(Add, extended, net, vns)
  {
    var extended := b.(networks := b.networks + [net]);
    assert |extended.networks| == |b.networks| + 1;
    assert Field(extended, NetworksKey) != Field(b, NetworksKey);
    assert Members(b.networks) - Members(extended.networks) == {};
    assert Members(extended.networks) - Members(b.networks) == {net};
    EnumeratesFew(removed, net);
    EnumeratesFew(added, net);
    FanoutOne(Add, extended, net, vns);
    assert [net][..0] == [];
    var e := NetworkEmission(Add, extended, net, vns);
    assert Targets(extended, net) == [net];
    assert FanoutEach(Add, extended, [net], vns) == Then(Emission([], None), Fanout(Add, extended, [net], vns));
    assert [] + e.calls == e.calls;
  }

  /** The update `disassociate_network` makes (the first occurrence of the
      network removed) changes the record and reconciles that network with
      DELETE under the old record, unless the network is still listed. */
  lemma RemovePlan(b: Bgpvpn, net: NetworkId, removed: seq<NetworkId>, added: seq<NetworkId>,
                   vns: map<NetworkId, VirtualNetwork>)
    requires net != "" && net in b.networks
    requires NetworkOrder(b, b.(networks := RemoveFirst(b.networks, net).value), removed, added)
    ensures var reduced := b.(networks := RemoveFirst(b.networks, net).value);
      && reduced != b
      && UpdatePlan(b, reduced, removed, added, vns) ==
           if net in reduced.networks then Emission([], None) else NetworkEmission(Delete, b, net, vns)
  {
    var rest := RemoveFirst(b.networks, net).value;
    var reduced := b.(networks := rest);
    RemovedNetworks(b.networks, net);
    assert Field(reduced, NetworksKey) != Field(b, NetworksKey);
    assert NetworksKey in ChangedKeys(reduced, b);
    EnumeratesFew(removed, net);
    EnumeratesFew(added, net);
    assert added == [];
    assert FanoutEach(Add, reduced, [], vns) == Emission([], None);
    if net in rest {
      assert removed == [];
    } else {
      assert removed == [net];
      FanoutOne(Delete, b, net, vns);
      assert [net][..0] == [];
      var e := NetworkEmission(Delete, b, net, vns);
      assert Targets(b, net) == [net];
      assert FanoutEach(Delete, b, [net], vns) == Then(Emission([], None), Fanout(Delete, b, [net], vns));
      assert [] + e.calls == e.calls;
      assert e.calls + [] == e.calls;
    }
  }

  /** Removing the first occurrence of a listed network shortens the list,
      adds no network, and drops the network unless it occurred twice. */
  lemma RemovedNetworks(s: seq<NetworkId>, net: NetworkId)
    requires net in s
    ensures var rest := RemoveFirst(s, net).value;
      && rest != s
      && Members(rest) - Members(s) == {}
      && Members(s) - Members(rest) == if net in rest then {} else {net}
  {
    var rest := RemoveFirst(s, net).value;
    RemoveFirstTakesOneOccurrence(s, net);
    RemoveFirstMembers(s, net);
    assert |multiset(rest)| == |multiset(s)| - 1;
  }

  /** Associating a network that was not listed and then disassociating it
      gives back the original record, and the disassociation emits the
      association's calls with DELETE in place of ADD. */
  lemma AssociateThenDisassociate(b: Bgpvpn, net: NetworkId, vns: map<NetworkId, VirtualNetwork>)
    requires net !in b.networks
    ensures var extended := b.(networks := b.networks + [net]);
      && net in extended.networks
      && RemoveFirst(extended.networks, net) == Some(b.networks)
      && extended.(networks := RemoveFirst(extended.networks, net).value) == b
      && NetworkEmission(Delete, extended, net, vns).calls == WithOp(NetworkEmission(Add, extended, net, vns).calls, Delete)
      && NetworkEmission(Delete, extended, net, vns).error == NetworkEmission(Add, extended, net, vns).error
  {
    var extended := b.(networks := b.networks + [net]);
    AppendThenRemoveFirst(b.networks, net);
    FanoutOne(Add, extended, net, vns);
    FanoutOne(Delete, extended, net, vns);
    FanoutDeleteMirrorsAdd(extended, [net], vns);
  }

  /** The net effect on the route-target table of associating a network and
      then disassociating it: no route target named by the association still
      lists the network's routing instance x. */
  lemma RoundTripClearsRefs(t: TargetTable, b: Bgpvpn, net: NetworkId,
                             vns: map<NetworkId, VirtualNetwork>, x: Uuid)
    requires RiOfNetwork(vns, net) == Success(Some(x))
    ensures var adds := NetworkEmission(Add, b, net, vns).calls;
      var after := ApplyCalls(t, adds + WithOp(adds, Delete));
      forall c :: c in adds ==> ObjectName(c.fq) !in after.objects || x !in after.objects[ObjectName(c.fq)].backRefs
  {
    NetworkCallsCarry(Add, Some(x), b);
    UndoClearsRefs(t, NetworkCalls(Add, Some(x), b), x);
  }

  /** Any run of calls from routing instance x, followed by the same run
      as DELETEs, leaves none of the named route targets listing x. */
  lemma UndoClearsRefs(t: TargetTable, adds: seq<RefCall>, x: Uuid)
    requires forall c :: c in adds ==> c.ri == Some(x)
    ensures var after := ApplyCalls(t, adds + WithOp(adds, Delete));
      forall c :: c in adds ==> ObjectName(c.fq) !in after.objects || x !in after.objects[ObjectName(c.fq)].backRefs
  {
    var dels := WithOp(adds, Delete);
    WithOpAt(adds, Delete);
    forall i | 0 <= i < |dels| ensures dels[i].op == Delete && dels[i].ri == Some(x) {
      assert adds[i] in adds;
    }
    ApplyCallsAppend(t, adds, dels);
    DeletesSettle(ApplyCalls(t, adds), dels);
    var after := ApplyCalls(t, adds + dels);
    forall c | c in adds ensures ObjectName(c.fq) !in after.objects || x !in after.objects[ObjectName(c.fq)].backRefs {
      var i :| 0 <= i < |adds| && adds[i] == c;
      assert dels[i].fq == c.fq && Settled(after, dels[i]);
    }
  }

  /** An update that adds network m to a record listing only n reconciles m
      alone, with ADD, whatever else the update changes: when the route
      targets change too, n's routing instance keeps its references to the
      old route targets. */
  lemma MixedUpdateSkipsKeptNetwork(prior: Bgpvpn, merged: Bgpvpn, n: NetworkId, m: NetworkId,
                                    removed: seq<NetworkId>, added: seq<NetworkId>,
                                    vns: map<NetworkId, VirtualNetwork>)
    requires prior.networks == [n] && merged.networks == [n, m] && n != m && m != ""
    requires NetworkOrder(prior, merged, removed, added)
    ensures UpdatePlan(prior, merged, removed, added, vns) == NetworkEmission(Add, merged, m, vns)
  {
    assert Field(merged, NetworksKey) != Field(prior, NetworksKey);
    assert NetworksKey in ChangedKeys(merged, prior);
    assert Members(prior.networks) - Members(merged.networks) == {};
    assert Members(merged.networks) - Members(prior.networks) == {m};
    EnumeratesFew(removed, m);
    EnumeratesFew(added, m);
    FanoutOne(Add, merged, m, vns);
    assert [m][..0] == [];
    var e := NetworkEmission(Add, merged, m, vns);
    assert Targets(merged, m) == [m];
    assert FanoutEach(Add, merged, [m], vns) == Then(Emission([], None), Fanout(Add, merged, [m], vns));
    assert [] + e.calls == e.calls;
  }

  /** A record with one route target (64512:1, say), two import targets
      (64512:11, 64512:12) and two export targets (64512:13, 64512:14),
      associated with one network whose routing instance is x: changing only
      route_targets to [] and import_targets to [64512:22] DELETEs all five
      old references of x and then ADDs three: the new import target and the
      unchanged export targets. */
  lemma RouteTargetUpdateScenario(b: Bgpvpn, imp: string, vns: map<NetworkId, VirtualNetwork>, x: Uuid)
    requires b.vpnType == L3 && |b.networks| == 1 && b.networks[0] != ""
    requires |b.routeTargets| == 1 && |b.importTargets| == 2 && |b.exportTargets| == 2
    requires RiOfNetwork(vns, b.networks[0]) == Success(Some(x))
    ensures var merged := b.(routeTargets := [], importTargets := [imp]);
      var plan := UpdatePlan(b, merged, [], [], vns);
      && NetworkOrder(b, merged, [], [])
      && plan.error.None?
      && plan.calls == NetworkCalls(Delete, Some(x), b) + NetworkCalls(Add, Some(x), merged)
      && |NetworkCalls(Delete, Some(x), b)| == 5
      && NetworkCalls(Add, Some(x), merged) ==
           [RefCall(Add, Some(x), TargetFqName(imp), Import),
            RefCall(Add, Some(x), TargetFqName(b.exportTargets[0]), Export),
            RefCall(Add, Some(x), TargetFqName(b.exportTargets[1]), Export)]
  {
    var net := b.networks[0];
    var merged := b.(routeTargets := [], importTargets := [imp]);
    assert b.networks == [net];
    assert Field(merged, RouteTargetsKey) != Field(b, RouteTargetsKey);
    SingleNetworkTargetChange(b, merged, net, vns);
    SingleNetworkCalls(b, merged, net, vns, x);
    TargetUpdateCalls(b, imp, x);
  }

  /** The per-network calls of the records before and after such an update. */
  lemma TargetUpdateCalls(b: Bgpvpn, imp: string, x: Uuid)
    requires b.vpnType == L3
    requires |b.routeTargets| == 1 && |b.importTargets| == 2 && |b.exportTargets| == 2
    ensures var merged := b.(routeTargets := [], importTargets := [imp]);
      && |NetworkCalls(Delete, Some(x), b)| == 5
      && NetworkCalls(Add, Some(x), merged) ==
           [RefCall(Add, Some(x), TargetFqName(imp), Import),
            RefCall(Add, Some(x), TargetFqName(b.exportTargets[0]), Export),
            RefCall(Add, Some(x), TargetFqName(b.exportTargets[1]), Export)]
  {
    RoleCallsAt(Delete, Some(x), b.routeTargets, Untagged);
    RoleCallsAt(Delete, Some(x), b.importTargets, Import);
    RoleCallsAt(Delete, Some(x), b.exportTargets, Export);
    assert RoleCalls(Add, Some(x), [], Untagged) == [];
    RoleCallsAt(Add, Some(x), [imp], Import);
    RoleCallsAt(Add, Some(x), b.exportTargets, Export);
  }

  /** A route-target change on a record with one network, whose networks stay. */
  lemma SingleNetworkTargetChange(b: Bgpvpn, merged: Bgpvpn, net: NetworkId, vns: map<NetworkId, VirtualNetwork>)
    requires b.networks == [net] && merged.networks == [net] && net != ""
    requires Field(merged, RouteTargetsKey) != Field(b, RouteTargetsKey)
    ensures NetworkOrder(b, merged, [], [])
    ensures UpdatePlan(b, merged, [], [], vns) ==
      Then(NetworkEmission(Delete, b, net, vns), NetworkEmission(Add, merged, net, vns))
  {
    var changed := ChangedKeys(merged, b);
    assert RouteTargetsKey in RouteTargetKeys * changed;
    assert NetworksKey !in changed;
    assert Targets(b, "") == [net] && Targets(merged, "") == [net];
    FanoutOne(Delete, b, net, vns);
    FanoutOne(Add, merged, net, vns);
  }

  lemma SingleNetworkCalls(b: Bgpvpn, merged: Bgpvpn, net: NetworkId, vns: map<NetworkId, VirtualNetwork>, x: Uuid)
    requires RiOfNetwork(vns, net) == Success(Some(x))
    ensures var plan := Then(NetworkEmission(Delete, b, net, vns), NetworkEmission(Add, merged, net, vns));
      plan.error.None? && plan.calls == NetworkCalls(Delete, Some(x), b) + NetworkCalls(Add, Some(x), merged)
  {
  }

  /** Two runs of calls, one after the other, are the run of both. */
  lemma Chain(l0: seq<RefCall>, t0: TargetTable, a: seq<RefCall>, l1: seq<RefCall>, t1: TargetTable,
              b: seq<RefCall>, l2: seq<RefCall>, t2: TargetTable)
    requires l1 == l0 + a && t1 == ApplyCalls(t0, a)
    requires l2 == l1 + b && t2 == ApplyCalls(t1, b)
    ensures l2 == l0 + (a + b) && t2 == ApplyCalls(t0, a + b)
  {
    LogAssociates(l0, a, b);
    ApplyCallsAppend(t0, a, b);
  }

  lemma LogAssociates(l0: seq<RefCall>, a: seq<RefCall>, b: seq<RefCall>)
    ensures (l0 + a) + b == l0 + (a + b)
  {
  }

  /** A reconciliation step: after the calls of `done`, the calls of `next`
      make up the calls of `Then(done, next)`. */
  lemma ChainThen(l0: seq<RefCall>, t0: TargetTable, done: Emission, l1: seq<RefCall>, t1: TargetTable,
                  next: Emission, l2: seq<RefCall>, t2: TargetTable)
    requires done.error.None?
    requires l1 == l0 + done.calls && t1 == ApplyCalls(t0, done.calls)
    requires l2 == l1 + next.calls && t2 == ApplyCalls(t1, next.calls)
    ensures var whole := Then(done, next);
      l2 == l0 + whole.calls && t2 == ApplyCalls(t0, whole.calls) && whole.error == next.error
  {
    Chain(l0, t0, done.calls, l1, t1, next.calls, l2, t2);
  }

  /** One more route target of a role pass. */
  lemma RoleStep(op: Op, ri: Option<Uuid>, rts: seq<string>, tag: Tag, j: nat,
                 l0: seq<RefCall>, t0: TargetTable, l1: seq<RefCall>, t1: TargetTable, l2: seq<RefCall>, t2: TargetTable)
    requires j < |rts|
    requires l1 == l0 + RoleCalls(op, ri, rts[..j], tag) && t1 == ApplyCalls(t0, RoleCalls(op, ri, rts[..j], tag))
    requires var call := RefCall(op, ri, TargetFqName(rts[j]), tag);
      l2 == l1 + [call] && t2 == ApplyRef(t1, call).table
    ensures l2 == l0 + RoleCalls(op, ri, rts[..j + 1], tag) && t2 == ApplyCalls(t0, RoleCalls(op, ri, rts[..j + 1], tag))
  {
    var done := RoleCalls(op, ri, rts[..j], tag);
    var call := RefCall(op, ri, TargetFqName(rts[j]), tag);
    RoleCallsSnoc(op, ri, rts, tag, j);
    ApplyCallsSnoc(t0, done, call);
    LogAssociates(l0, done, [call]);
  }

  /** A network of `_set_bgpvpn_association`'s loop whose routing instance
      cannot be found ends the whole loop with that error. */
  lemma FanoutFails(op: Op, b: Bgpvpn, nets: seq<NetworkId>, vns: map<NetworkId, VirtualNetwork>, i: nat)
    requires i < |nets| && Fanout(op, b, nets[..i], vns).error.None? && RiOfNetwork(vns, nets[i]).Failure?
    ensures Fanout(op, b, nets, vns) == Emission(Fanout(op, b, nets[..i], vns).calls, Some(RiOfNetwork(vns, nets[i]).error))
  {
    var done := Fanout(op, b, nets[..i], vns);
    FanoutStep(op, b, nets, vns, i);
    assert done.calls + [] == done.calls;
    FanoutStopsAtError(op, b, nets, vns, i + 1);
  }

  /** A network of `_set_bgpvpn_association`'s loop whose routing instance is
      ri extends the log and table by that network's calls. */
  lemma FanoutContinues(op: Op, b: Bgpvpn, nets: seq<NetworkId>, vns: map<NetworkId, VirtualNetwork>, i: nat, ri: Option<Uuid>,
                        l0: seq<RefCall>, t0: TargetTable, l1: seq<RefCall>, t1: TargetTable, l2: seq<RefCall>, t2: TargetTable)
    requires i < |nets| && RiOfNetwork(vns, nets[i]) == Success(ri)
    requires var done := Fanout(op, b, nets[..i], vns);
      done.error.None? && l1 == l0 + done.calls && t1 == ApplyCalls(t0, done.calls)
    requires l2 == l1 + NetworkCalls(op, ri, b) && t2 == ApplyCalls(t1, NetworkCalls(op, ri, b))
    ensures var longer := Fanout(op, b, nets[..i + 1], vns);
      longer.error.None? && l2 == l0 + longer.calls && t2 == ApplyCalls(t0, longer.calls)
  {
    var done := Fanout(op, b, nets[..i], vns);
    FanoutStep(op, b, nets, vns, i);
    Chain(l0, t0, done.calls, l1, t1, NetworkCalls(op, ri, b), l2, t2);
  }

  /** One more network of `_reconcile`'s loop: the log and table after it
      are those of the longer prefix, and a failure there is the whole
      loop's outcome. */
  lemma ReconcileStep(op: Op, b: Bgpvpn, nets: seq<NetworkId>, vns: map<NetworkId, VirtualNetwork>, i: nat,
                      l0: seq<RefCall>, t0: TargetTable, l1: seq<RefCall>, t1: TargetTable, l2: seq<RefCall>, t2: TargetTable)
    requires i < |nets|
    requires var done := FanoutEach(op, b, nets[..i], vns);
      done.error.None? && l1 == l0 + done.calls && t1 == ApplyCalls(t0, done.calls)
    requires var next := Fanout(op, b, Targets(b, nets[i]), vns);
      l2 == l1 + next.calls && t2 == ApplyCalls(t1, next.calls)
    ensures var longer := FanoutEach(op, b, nets[..i + 1], vns);
      && l2 == l0 + longer.calls && t2 == ApplyCalls(t0, longer.calls)
      && longer.error == Fanout(op, b, Targets(b, nets[i]), vns).error
      && (longer.error.Some? ==> FanoutEach(op, b, nets, vns) == longer)
  {
    var done := FanoutEach(op, b, nets[..i], vns);
    var next := Fanout(op, b, Targets(b, nets[i]), vns);
    FanoutEachStep(op, b, nets, vns, i);
    ChainThen(l0, t0, done, l1, t1, next, l2, t2);
    if Then(done, next).error.Some? {
      FanoutEachStopsAtError(op, b, nets, vns, i + 1);
    }
  }

  class OpenContrailDriver {
    /** The control plane's key-value store, keyed by VPN id. */
    var kv: map<Uuid, Blob>
    /** The route-target objects, by name. */
    var targets: map<string, RouteTargetObj>
    /** The fresh-id oracle: the next uuid the control plane hands out. */
    var nextUuid: nat
    /** The virtual networks; the driver only reads them. */
    const virtualNetworks: map<NetworkId, VirtualNetwork>
    /** Every reference update issued, in order. */
    ghost var log: seq<RefCall>

    ghost predicate Valid()
      reads this
    {
      TableValid(Table()) && forall k :: k in kv ==> k < nextUuid
    }

    function Table(): TargetTable
      reads this
    {
      TargetTable(targets, nextUuid)
    }

    /** The driver has issued `calls` since the log was log0 and the
        route-target table t0, and the table is what those calls make of t0. */
    ghost predicate Emitted(log0: seq<RefCall>, t0: TargetTable, calls: seq<RefCall>)
      reads this
    {
      log == log0 + calls && Table() == ApplyCalls(t0, calls)
    }

    constructor (vns: map<NetworkId, VirtualNetwork>)
      ensures Valid()
      ensures kv == map[] && targets == map[] && log == [] && virtualNetworks == vns
    {
      kv := map[];
      targets := map[];
      nextUuid := 0;
      virtualNetworks := vns;
      log := [];
    }

    /** `_locate_rt`. */
    method LocateRt(fq: seq<string>) returns (uuid: Uuid)
      requires Valid()
      modifies this
      ensures Valid()
      ensures Located(Table(), uuid) == Locate(old(Table()), ObjectName(fq))
      ensures kv == old(kv) && log == old(log)
    {
      var name := ObjectName(fq);
      if name in targets {
        uuid := targets[name].uuid;
      } else {
        uuid := nextUuid;
        targets := targets[name := RouteTargetObj(uuid, {})];
        nextUuid := nextUuid + 1;
      }
    }

    /** `_update_rt_ri_association`: one reference update, and on DELETE the
        removal of a route target left without back-references. */
    method UpdateRtRiAssociation(op: Op, ri: Option<Uuid>, fq: seq<string>, tag: Tag) returns (r: Option<Uuid>)
      requires Valid()
      modifies this
      ensures Valid() && kv == old(kv)
      ensures log == old(log) + [RefCall(op, ri, fq, tag)]
      ensures Applied(Table(), r) == ApplyRef(old(Table()), RefCall(op, ri, fq, tag))
    {
      var uuid := LocateRt(fq);
      var name := ObjectName(fq);
      log := log + [RefCall(op, ri, fq, tag)];
      var obj := targets[name];
      targets := targets[name := obj.(backRefs := RefsAfter(obj.backRefs, op, ri))];
      if op == Add {
        return Some(uuid);
      }
      if targets[name].backRefs == {} {
        targets := targets - {name};
        r := None;
      } else {
        r := Some(uuid);
      }
    }

    /** One role pass of `_set_bgpvpn_association`: a reference update per
        route target of the list, with the role's tag. */
    method UpdateRole(op: Op, ri: Option<Uuid>, rts: seq<string>, tag: Tag)
      requires Valid()
      modifies this
      ensures Valid() && kv == old(kv)
      ensures Emitted(old(log), old(Table()), RoleCalls(op, ri, rts, tag))
    {
      var j := 0;
      while j < |rts|
        invariant 0 <= j <= |rts|
        invariant Valid() && kv == old(kv)
        invariant Emitted(old(log), old(Table()), RoleCalls(op, ri, rts[..j], tag))
      {
        ghost var l1, t1 := log, Table();
        var _ := UpdateRtRiAssociation(op, ri, TargetFqName(rts[j]), tag);
        RoleStep(op, ri, rts, tag, j, old(log), old(Table()), l1, t1, log, Table());
        j := j + 1;
      }
      assert rts[..j] == rts;
    }

    /** The calls for one network whose routing instance is ri. */
    method UpdateNetwork(op: Op, ri: Option<Uuid>, b: Bgpvpn)
      requires Valid()
      modifies this
      ensures Valid() && kv == old(kv)
      ensures Emitted(old(log), old(Table()), NetworkCalls(op, ri, b))
    {
      if b.vpnType == L3 {
        ghost var l0, t0 := log, Table();
        ghost var r1 := RoleCalls(op, ri, b.routeTargets, Untagged);
        ghost var r2 := RoleCalls(op, ri, b.importTargets, Import);
        ghost var r3 := RoleCalls(op, ri, b.exportTargets, Export);
        UpdateRole(op, ri, b.routeTargets, Untagged);
        ghost var l1, t1 := log, Table();
        UpdateRole(op, ri, b.importTargets, Import);
        ghost var l2, t2 := log, Table();
        Chain(l0, t0, r1, l1, t1, r2, l2, t2);
        UpdateRole(op, ri, b.exportTargets, Export);
        Chain(l0, t0, r1 + r2, l2, t2, r3, log, Table());
      } else {
        assert old(log) + [] == old(log);
      }
    }

    /** `_set_bgpvpn_association`: for each target network in order, resolve
        its routing instance (stopping at the first failure), then issue its
        calls. Returns the record unchanged. */
    method SetBgpvpnAssociation(op: Op, b: Bgpvpn, net: NetworkId) returns (r: Result<Bgpvpn, Error>)
      requires Valid()
      modifies this
      ensures Valid() && kv == old(kv)
      ensures var e := Fanout(op, b, Targets(b, net), virtualNetworks);
        && Emitted(old(log), old(Table()), e.calls)
        && r == (if e.error.None? then Success(b) else Failure(e.error.value))
    {
      var nets := Targets(b, net);
      ghost var l0, t0 := log, Table();
      var i := 0;
      assert nets[..0] == [];
      assert l0 + [] == l0;
      while i < |nets|
        invariant 0 <= i <= |nets|
        invariant Valid() && kv == old(kv)
        invariant Fanout(op, b, nets[..i], virtualNetworks).error.None?
        invariant Emitted(l0, t0, Fanout(op, b, nets[..i], virtualNetworks).calls)
      {
        var ri := RiOfNetwork(virtualNetworks, nets[i]);
        if ri.Failure? {
          FanoutFails(op, b, nets, virtualNetworks, i);
          return Failure(ri.error);
        }
        ghost var l1, t1 := log, Table();
        UpdateNetwork(op, ri.value, b);
        FanoutContinues(op, b, nets, virtualNetworks, i, ri.value, l0, t0, l1, t1, log, Table());
        i := i + 1;
      }
      assert nets[..i] == nets;
      return Success(b);
    }

    /** `for n in nets: _set_bgpvpn_association(op, b, n)`. */
    method ReconcileEach(op: Op, b: Bgpvpn, nets: seq<NetworkId>) returns (r: Outcome<Error>)
      requires Valid()
      modifies this
      ensures Valid() && kv == old(kv)
      ensures var e := FanoutEach(op, b, nets, virtualNetworks);
        && Emitted(old(log), old(Table()), e.calls)
        && r == (if e.error.None? then Pass else Fail(e.error.value))
    {
      ghost var l0, t0 := log, Table();
      var i := 0;
      assert nets[..0] == [];
      assert l0 + [] == l0;
      while i < |nets|
        invariant 0 <= i <= |nets|
        invariant Valid() && kv == old(kv)
        invariant FanoutEach(op, b, nets[..i], virtualNetworks).error.None?
        invariant Emitted(l0, t0, FanoutEach(op, b, nets[..i], virtualNetworks).calls)
      {
        ghost var l1, t1 := log, Table();
        var res := SetBgpvpnAssociation(op, b, nets[i]);
        ReconcileStep(op, b, nets, virtualNetworks, i, l0, t0, l1, t1, log, Table());
        if res.Failure? {
          return Fail(res.error);
        }
        i := i + 1;
      }
      assert nets[..i] == nets;
      return Pass;
    }

    /** `get_bgpvpn`: the stored record, if the key holds one and the caller
        may see it; NotFound otherwise. */
    function GetBgpvpn(ctx: Context, id: Uuid): (r: Result<Bgpvpn, Error>)
      reads this
      ensures r.Success? <==> id in kv && Decode(kv[id]).Some? && Visible(ctx, Decode(kv[id]).value)
      ensures r.Success? ==> Decode(kv[id]) == Some(r.value)
      ensures r.Failure? ==> r.error == NotFound(id)
    {
      if id !in kv then Failure(NotFound(id))
      else match Decode(kv[id])
        case None => Failure(NotFound(id))
        case Some(b) => if Visible(ctx, b) then Success(b) else Failure(NotFound(id))
    }

    /** `get_bgpvpn` as written: for a missing key or a value that does not
        parse it names `BGPVPNNotFound` on the unbound local `bgpvpn`, and
        for a parsed value without a record on that value, so Python raises
        an error other than NotFound. */
    function GetBgpvpnAsWritten(ctx: Context, id: Uuid): (r: Result<Bgpvpn, Error>)
      reads this
      ensures id !in kv || Parse(kv[id]).None? || Decode(kv[id]).None? ==> r == Failure(InternalError)
      ensures id in kv && Decode(kv[id]).Some? ==> r == GetBgpvpn(ctx, id)
    {
      if id !in kv then Failure(InternalError)
      else match Parse(kv[id])
        case None => Failure(InternalError)
        case Some(doc) =>
          if !doc.BgpvpnDoc? then Failure(InternalError)
          else if !Visible(ctx, doc.record) then Failure(NotFound(id))
          else Success(doc.record)
    }

    /** `get_bgpvpns`: every stored record that passes the filters and that
        the caller may see; values that do not parse or hold no record are
        skipped. */
    method GetBgpvpns(ctx: Context, filters: Filters) returns (r: seq<Bgpvpn>, ghost keys: seq<Uuid>)
      ensures |keys| == |r| && NoDuplicates(keys)
      ensures forall i :: 0 <= i < |keys| ==> keys[i] in kv && Decode(kv[keys[i]]) == Some(r[i])
      ensures forall k :: k in keys <==> k in kv && ListedKey(ctx, filters, kv[k])
      ensures forall b :: b in r <==> exists k :: k in kv && Listed(ctx, filters, kv[k], b)
      ensures |r| <= |kv.Keys|
    {
      r, keys := [], [];
      var rest := kv.Keys;
      ghost var seen: set<Uuid> := {};
      while rest != {}
        invariant rest + seen == kv.Keys && rest !! seen
        invariant Listing(ctx, filters, kv, seen, r, keys)
        invariant |r| <= |seen|
        decreases rest
      {
        var k :| k in rest;
        ghost var r0, keys0 := r, keys;
        var got := Decode(kv[k]);
        if got.Some? && Matches(got.value, filters) && Visible(ctx, got.value) {
          r := r + [got.value];
          keys := keys + [k];
        }
        ListedStep(ctx, filters, kv, seen, k, r0, keys0, r, keys);
        MoveKey(rest, seen, k);
        rest := rest - {k};
        seen := seen + {k};
      }
      ListingMembers(ctx, filters, kv, seen, r, keys);
    }

    /** `create_bgpvpn`: validate, choose the tenant, then store the new
        record under a fresh id with no networks. Nothing is written and no
        reference updated when a check fails. */
    method CreateBgpvpn(ctx: Context, req: CreateRequest) returns (r: Result<Bgpvpn, Error>)
      requires Valid()
      modifies this
      ensures Valid()
      ensures r == NewRecord(ctx, req, old(nextUuid))
      ensures r.Failure? ==> unchanged(this)
      ensures r.Success? ==>
        && r.value.id !in old(kv)
        && kv == old(kv)[r.value.id := Stored(r.value)]
        && targets == old(targets) && log == old(log)
        && GetBgpvpn(ctx, r.value.id) == Success(r.value)
    {
      r := NewRecord(ctx, req, nextUuid);
      if r.Success? {
        kv := kv[nextUuid := Stored(r.value)];
        nextUuid := nextUuid + 1;
      }
    }

    /** The reconciliation step of `update_bgpvpn` (see UpdatePlan).
        `removed` and `added` are the orders in which networks were reconciled. */
    method Reconcile(prior: Bgpvpn, merged: Bgpvpn)
      returns (r: Outcome<Error>, ghost removed: seq<NetworkId>, ghost added: seq<NetworkId>)
      requires Valid()
      modifies this
      ensures Valid() && kv == old(kv)
      ensures var e := UpdatePlan(prior, merged, removed, added, virtualNetworks);
        && NetworkOrder(prior, merged, removed, added)
        && Emitted(old(log), old(Table()), e.calls)
        && r == (if e.error.None? then Pass else Fail(e.error.value))
    {
      removed, added := [], [];
      ghost var l0, t0 := log, Table();
      var changed := ChangedKeys(merged, prior);
      if NetworksKey in changed {
        var gone := ListOf(Members(prior.networks) - Members(merged.networks));
        var come := ListOf(Members(merged.networks) - Members(prior.networks));
        removed, added := gone, come;
        ghost var first := FanoutEach(Delete, prior, gone, virtualNetworks);
        ghost var next := FanoutEach(Add, merged, come, virtualNetworks);
        r := ReconcileEach(Delete, prior, gone);
        if r.Pass? {
          ghost var l1, t1 := log, Table();
          r := ReconcileEach(Add, merged, come);
          ChainThen(l0, t0, first, l1, t1, next, log, Table());
        }
        assert UpdatePlan(prior, merged, removed, added, virtualNetworks) == Then(first, next);
      } else if RouteTargetKeys * changed != {} {
        ghost var first := Fanout(Delete, prior, Targets(prior, ""), virtualNetworks);
        ghost var next := Fanout(Add, merged, Targets(merged, ""), virtualNetworks);
        var res := SetBgpvpnAssociation(Delete, prior, "");
        if res.Success? {
          ghost var l1, t1 := log, Table();
          res := SetBgpvpnAssociation(Add, merged, "");
          ChainThen(l0, t0, first, l1, t1, next, log, Table());
        }
        assert UpdatePlan(prior, merged, removed, added, virtualNetworks) == Then(first, next);
        r := if res.Success? then Pass else Fail(res.error);
      } else {
        assert l0 + [] == l0;
        r := Pass;
      }
    }

    /** `update_bgpvpn`: merge the patch into the stored record and, unless
        nothing changed, reconcile (see UpdatePlan) and store the merged
        record. A failed reconciliation stores nothing. `removed` and `added`
        are the orders in which networks were reconciled. */
    method UpdateBgpvpn(ctx: Context, id: Uuid, patch: Patch)
      returns (r: Result<Bgpvpn, Error>, ghost removed: seq<NetworkId>, ghost added: seq<NetworkId>)
      requires Valid()
      modifies this
      ensures Valid()
      ensures old(GetBgpvpn(ctx, id)).Failure? ==> r == Failure(NotFound(id)) && unchanged(this)
      ensures old(GetBgpvpn(ctx, id)).Success? ==>
        var prior := old(GetBgpvpn(ctx, id)).value;
        var merged := Merge(prior, patch);
        var e := UpdatePlan(prior, merged, removed, added, virtualNetworks);
        && NetworkOrder(prior, merged, removed, added)
        && Emitted(old(log), old(Table()), e.calls)
        && (e.error.Some? ==> r == Failure(e.error.value) && kv == old(kv))
        && (e.error.None? ==>
              r == Success(merged) && kv == if merged == prior then old(kv) else old(kv)[id := Stored(merged)])
    {
      removed, added := [], [];
      var got := GetBgpvpn(ctx, id);
      if got.Failure? {
        return Failure(got.error), removed, added;
      }
      var prior := got.value;
      var merged := Merge(prior, patch);
      if merged == prior {
        assert ChangedKeys(merged, prior) == {};
        assert old(log) + [] == old(log);
        return Success(merged), removed, added;
      }
      var outcome;
      outcome, removed, added := Reconcile(prior, merged);
      if outcome.Fail? {
        return Failure(outcome.error), removed, added;
      }
      kv := kv[id := Stored(merged)];
      r := Success(merged);
    }

    /** `delete_bgpvpn`: DELETE-reconcile all networks of the record, then
        remove its key. */
    method DeleteBgpvpn(ctx: Context, id: Uuid) returns (r: Outcome<Error>)
      requires Valid()
      modifies this
      ensures Valid()
      ensures old(GetBgpvpn(ctx, id)).Failure? ==> r == Fail(NotFound(id)) && unchanged(this)
      ensures old(GetBgpvpn(ctx, id)).Success? ==>
        var b := old(GetBgpvpn(ctx, id)).value;
        var e := Fanout(Delete, b, b.networks, virtualNetworks);
        && Emitted(old(log), old(Table()), e.calls)
        && (e.error.Some? ==> r == Fail(e.error.value) && kv == old(kv))
        && (e.error.None? ==> r == Pass && kv == old(kv) - {id})
      ensures r.Pass? ==> GetBgpvpn(ctx, id) == Failure(NotFound(id))
    {
      var got := GetBgpvpn(ctx, id);
      if got.Failure? {
        return Fail(got.error);
      }
      var res := SetBgpvpnAssociation(Delete, got.value, "");
      if res.Failure? {
        return Fail(res.error);
      }
      kv := kv - {id};
      r := Pass;
    }

    /** `associate_network`: nothing for a falsy network id or a network
        already listed; otherwise append the network and update, which
        ADD-reconciles that one network with the extended record. */
    method AssociateNetwork(ctx: Context, id: Uuid, net: NetworkId) returns (r: Outcome<Error>)
      requires Valid()
      modifies this
      ensures Valid()
      ensures net == "" ==> r == Pass && unchanged(this)
      ensures net != "" && old(GetBgpvpn(ctx, id)).Failure? ==> r == Fail(NotFound(id)) && unchanged(this)
      ensures net != "" && old(GetBgpvpn(ctx, id)).Success? && net in old(GetBgpvpn(ctx, id)).value.networks ==>
        r == Pass && unchanged(this)
      ensures net != "" && old(GetBgpvpn(ctx, id)).Success? && net !in old(GetBgpvpn(ctx, id)).value.networks ==>
        var b := old(GetBgpvpn(ctx, id)).value;
        var extended := b.(networks := b.networks + [net]);
        var e := NetworkEmission(Add, extended, net, virtualNetworks);
        && Emitted(old(log), old(Table()), e.calls)
        && (e.error.Some? ==> r == Fail(e.error.value) && kv == old(kv))
        && (e.error.None? ==> r == Pass && kv == old(kv)[id := Stored(extended)])
    {
      if net == "" {
        return Pass;
      }
      var got := GetBgpvpn(ctx, id);
      if got.Failure? {
        return Fail(got.error);
      }
      var b := got.value;
      if net in b.networks {
        return Pass;
      }
      var extended := b.(networks := b.networks + [net]);
      MergeWholeRecord(b, extended);
      var res, removed, added := UpdateBgpvpn(ctx, id, WholeRecord(extended));
      AppendPlan(b, net, removed, added, virtualNetworks);
      r := if res.Success? then Pass else Fail(res.error);
    }

    /** `disassociate_network`: nothing for a falsy network id or a network
        not listed (a warning is logged); otherwise remove its first
        occurrence and update, which DELETE-reconciles the network with the
        old record unless the network is still listed (it occurred twice). */
    method DisassociateNetwork(ctx: Context, id: Uuid, net: NetworkId) returns (r: Outcome<Error>)
      requires Valid()
      modifies this
      ensures Valid()
      ensures net == "" ==> r == Pass && unchanged(this)
      ensures net != "" && old(GetBgpvpn(ctx, id)).Failure? ==> r == Fail(NotFound(id)) && unchanged(this)
      ensures net != "" && old(GetBgpvpn(ctx, id)).Success? && net !in old(GetBgpvpn(ctx, id)).value.networks ==>
        r == Pass && unchanged(this)
      ensures net != "" && old(GetBgpvpn(ctx, id)).Success? && net in old(GetBgpvpn(ctx, id)).value.networks ==>
        var b := old(GetBgpvpn(ctx, id)).value;
        var reduced := b.(networks := RemoveFirst(b.networks, net).value);
        var e := if net in reduced.networks then Emission([], None)
                 else NetworkEmission(Delete, b, net, virtualNetworks);
        && Emitted(old(log), old(Table()), e.calls)
        && (e.error.Some? ==> r == Fail(e.error.value) && kv == old(kv))
        && (e.error.None? ==> r == Pass && kv == old(kv)[id := Stored(reduced)])
    {
      if net == "" {
        return Pass;
      }
      var got := GetBgpvpn(ctx, id);
      if got.Failure? {
        return Fail(got.error);
      }
      var b := got.value;
      var rest := RemoveFirst(b.networks, net);
      if rest.None? {
        return Pass;
      }
      var reduced := b.(networks := rest.value);
      MergeWholeRecord(b, reduced);
      var res, removed, added := UpdateBgpvpn(ctx, id, WholeRecord(reduced));
      RemovePlan(b, net, removed, added, virtualNetworks);
      r := if res.Success? then Pass else Fail(res.error);
    }
  }

  /** get_bgpvpn as written reports a missing record as an error other than
      NotFound; the corrected lookup reports NotFound. */
  lemma MissingRecordMisreported(d: OpenContrailDriver, ctx: Context, id: Uuid)
    requires id !in d.kv
    ensures d.GetBgpvpnAsWritten(ctx, id) == Failure(InternalError)
    ensures d.GetBgpvpn(ctx, id) == Failure(NotFound(id))
  {
  }

  /** The same holds for a stored value that does not parse. */
  lemma UnparseableRecordMisreported(d: OpenContrailDriver, ctx: Context, id: Uuid)
    requires id in d.kv && d.kv[id] == Unparseable
    ensures d.GetBgpvpnAsWritten(ctx, id) == Failure(InternalError)
    ensures d.GetBgpvpn(ctx, id) == Failure(NotFound(id))
  {
  }
}
