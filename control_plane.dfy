/** The control plane as the reconciliation driver sees it: route-target
    objects with their routing-instance back-references, virtual networks
    with their routing-instance refs, and the reference-update calls the
    driver issues. The calls a reconciliation emits, and the route-target
    table they leave behind, are given here as functions; the driver's
    methods are proved against them. */
module ControlPlane {
  import opened Records
  import opened RouteTargetNames

  /** The `operation` of a reference update. */
  datatype Op = Add | Delete

  /** The `import_export` attribute of a reference update (None = untagged). */
  datatype Tag = Untagged | Import | Export

  /** One `ref_update` from a routing instance (None when the network had no
      matching routing instance) to the route target with fq-name fq. */
  datatype RefCall = RefCall(op: Op, ri: Option<Uuid>, fq: seq<string>, tag: Tag)

  /** A route-target object: its uuid and the routing instances referring to it. */
  datatype RouteTargetObj = RouteTargetObj(uuid: Uuid, backRefs: set<Uuid>)

  /** The route-target objects by name, and the next uuid the control plane hands out. */
  datatype TargetTable = TargetTable(objects: map<string, RouteTargetObj>, nextUuid: nat)

  /** Every uuid in use was handed out before nextUuid. */
  predicate TableValid(t: TargetTable) {
    forall n :: n in t.objects ==> t.objects[n].uuid < t.nextUuid
  }

  datatype Located = Located(table: TargetTable, uuid: Uuid)

  /** `_locate_rt`: look the route target up by name and create it (with no
      back-references) only when the lookup fails. */
  function Locate(t: TargetTable, name: string): (r: Located)
    ensures name in r.table.objects && r.table.objects[name].uuid == r.uuid
    ensures name in t.objects ==> r.table == t
    ensures name !in t.objects ==>
      && r.table.objects.Keys == t.objects.Keys + {name}
      && r.table.objects[name].backRefs == {}
      && (forall n :: n in t.objects ==> r.table.objects[n] == t.objects[n])
    ensures TableValid(t) ==> TableValid(r.table) && t.nextUuid <= r.table.nextUuid
    ensures TableValid(t) && name !in t.objects ==>
      forall n :: n in t.objects ==> t.objects[n].uuid != r.uuid
  {
    if name in t.objects then Located(t, t.objects[name].uuid)
    else
      var newId := t.nextUuid;
      Located(TargetTable(t.objects[name := RouteTargetObj(newId, {})], newId + 1), newId)
  }

  /** A second lookup of the same name finds the object the first one found
      or created, and creates nothing. */
  lemma LocateIdempotent(t: TargetTable, name: string)
    ensures Locate(Locate(t, name).table, name) == Locate(t, name)
  {
  }

  /** The back-references after a reference update. An update that names no
      routing instance changes none. */
  function RefsAfter(refs: set<Uuid>, op: Op, ri: Option<Uuid>): set<Uuid> {
    match ri
    case None => refs
    case Some(id) => if op == Add then refs + {id} else refs - {id}
  }

  datatype Applied = Applied(table: TargetTable, result: Option<Uuid>)

  /** `_update_rt_ri_association` for one call: locate the route target,
      update the reference, and on DELETE remove the object once it has no
      back-references left. The result is what the source returns. */
  function ApplyRef(t: TargetTable, c: RefCall): (r: Applied)
    ensures c.op == Add ==>
      var name := ObjectName(c.fq);
      && name in r.table.objects
      && r.result == Some(r.table.objects[name].uuid)
      && (c.ri.Some? ==> c.ri.value in r.table.objects[name].backRefs)
      && (name in t.objects ==> t.objects[name].backRefs <= r.table.objects[name].backRefs)
      && (name in t.objects ==>
            r.table.objects[name] == RouteTargetObj(t.objects[name].uuid, RefsAfter(t.objects[name].backRefs, Add, c.ri)))
      && (name !in t.objects ==> r.table.objects[name].backRefs == RefsAfter({}, Add, c.ri))
    ensures c.op == Delete ==>
      var name := ObjectName(c.fq);
      var before := if name in t.objects then t.objects[name].backRefs else {};
      var remaining := RefsAfter(before, Delete, c.ri);
      && (name in r.table.objects <==> remaining != {})
      && (name in r.table.objects ==> r.table.objects[name].backRefs == remaining)
      && (name in r.table.objects ==>
            name in t.objects && r.table.objects[name].uuid == t.objects[name].uuid
            && r.result == Some(t.objects[name].uuid))
      && (name !in r.table.objects ==> r.result == None)
    ensures TableValid(t) ==> TableValid(r.table) && t.nextUuid <= r.table.nextUuid
  {
    var name := ObjectName(c.fq);
    var loc := Locate(t, name);
    var obj := loc.table.objects[name];
    var refs := RefsAfter(obj.backRefs, c.op, c.ri);
    var updated := loc.table.(objects := loc.table.objects[name := obj.(backRefs := refs)]);
    if c.op == Add then Applied(updated, Some(loc.uuid))
    else if refs == {} then Applied(updated.(objects := updated.objects - {name}), None)
    else Applied(updated, Some(loc.uuid))
  }

  /** One reference update touches only its own route target. */
  lemma ApplyRefFrame(t: TargetTable, c: RefCall)
    ensures var r := ApplyRef(t, c).table;
      forall n :: n != ObjectName(c.fq) ==>
        (n in r.objects <==> n in t.objects) && (n in t.objects ==> r.objects[n] == t.objects[n])
  {
  }

  /** The route-target table after a sequence of calls, applied in order. */
  function ApplyCalls(t: TargetTable, cs: seq<RefCall>): TargetTable
    decreases |cs|
  {
    if cs == [] then t
    else ApplyRef(ApplyCalls(t, cs[..|cs| - 1]), cs[|cs| - 1]).table
  }

  /** A run of reference updates keeps every uuid below the uuid counter,
      and the counter never goes back. */
  lemma {:induction false} ApplyCallsKeepsValid(t: TargetTable, cs: seq<RefCall>)
    requires TableValid(t)
    ensures TableValid(ApplyCalls(t, cs)) && t.nextUuid <= ApplyCalls(t, cs).nextUuid
    decreases |cs|
  {
    if cs != [] {
      ApplyCallsKeepsValid(t, cs[..|cs| - 1]);
    }
  }

  /** One more call applies to the table the earlier calls left. */
  lemma ApplyCallsSnoc(t: TargetTable, cs: seq<RefCall>, c: RefCall)
    ensures ApplyCalls(t, cs + [c]) == ApplyRef(ApplyCalls(t, cs), c).table
  {
    assert (cs + [c])[..|cs|] == cs;
  }

  lemma {:induction false} ApplyCallsAppend(t: TargetTable, a: seq<RefCall>, b: seq<RefCall>)
    ensures ApplyCalls(t, a + b) == ApplyCalls(ApplyCalls(t, a), b)
    decreases |b|
  {
    if b == [] {
      assert a + b == a;
    } else {
      var b' := b[..|b| - 1];
      assert (a + b)[..|a + b| - 1] == a + b';
      assert (a + b)[|a + b| - 1] == b[|b| - 1];
      ApplyCallsAppend(t, a, b');
    }
  }

  /** A route target is in place for an ADD call when it exists and lists
      the call's routing instance, if the call names one. */
  predicate Installed(t: TargetTable, c: RefCall) {
    ObjectName(c.fq) in t.objects && (c.ri.Some? ==> c.ri.value in t.objects[ObjectName(c.fq)].backRefs)
  }

  /** ADD calls never lose a reference: after any run of them, every route
      target the run names exists and lists the routing instance of each
      call that named it. */
  lemma {:induction false} AddsInstallRefs(t: TargetTable, cs: seq<RefCall>)
    requires forall i :: 0 <= i < |cs| ==> cs[i].op == Add
    ensures forall i :: 0 <= i < |cs| ==> Installed(ApplyCalls(t, cs), cs[i])
    decreases |cs|
  {
    if cs != [] {
      var prefix := cs[..|cs| - 1];
      var last := cs[|cs| - 1];
      AddsInstallRefs(t, prefix);
      var mid := ApplyCalls(t, prefix);
      var after := ApplyCalls(t, cs);
      assert after == ApplyRef(mid, last).table;
      ApplyRefFrame(mid, last);
      forall i | 0 <= i < |cs| ensures Installed(after, cs[i]) {
        if i < |cs| - 1 {
          assert cs[i] == prefix[i];
        }
      }
    }
  }

  /** Repeating an ADD changes nothing: the object already exists and already
      lists the routing instance, so the second call returns the same uuid
      and leaves the table as the first one left it. */
  lemma RepeatedAddIsIdempotent(t: TargetTable, c: RefCall)
    requires c.op == Add
    ensures ApplyRef(ApplyRef(t, c).table, c) == ApplyRef(t, c)
  {
  }

  /** Repeating a DELETE leaves the same route-target objects, but not the
      same uuid counter: when the first call removed the object, the second
      looks it up, fails, creates it afresh and removes it again, using up a
      uuid. */
  lemma RepeatedDeleteKeepsObjects(t: TargetTable, c: RefCall)
    requires c.op == Delete
    ensures var once := ApplyRef(t, c).table;
      var twice := ApplyRef(once, c).table;
      && twice.objects == once.objects
      && twice.nextUuid == (if ObjectName(c.fq) in once.objects then once.nextUuid else once.nextUuid + 1)
  {
    var name := ObjectName(c.fq);
    var once := ApplyRef(t, c).table;
    var twice := ApplyRef(once, c).table;
    ApplyRefFrame(once, c);
    if name in once.objects {
      assert twice.objects[name] == once.objects[name];
    } else {
      assert name !in twice.objects;
    }
    assert twice.objects.Keys == once.objects.Keys;
  }

  /** A route target is settled for a DELETE call when it is absent, or
      present with back-references that do not include the call's routing
      instance, if the call names one, and are not all gone. */
  predicate Settled(t: TargetTable, c: RefCall) {
    var name := ObjectName(c.fq);
    name !in t.objects || (t.objects[name].backRefs != {} && (c.ri.Some? ==> c.ri.value !in t.objects[name].backRefs))
  }

  /** A DELETE of a settled route target keeps the objects. */
  lemma SettledDeleteKeepsObjects(t: TargetTable, c: RefCall)
    requires c.op == Delete && Settled(t, c)
    ensures ApplyRef(t, c).table.objects == t.objects
  {
    var name := ObjectName(c.fq);
    var r := ApplyRef(t, c).table;
    ApplyRefFrame(t, c);
    if name in t.objects {
      assert r.objects[name] == t.objects[name];
    }
    assert r.objects.Keys == t.objects.Keys;
  }

  /** After any run of DELETEs, every route target the run names is settled
      for each call that named it. */
  lemma {:induction false} DeletesSettle(t: TargetTable, cs: seq<RefCall>)
    requires forall i :: 0 <= i < |cs| ==> cs[i].op == Delete
    ensures forall i :: 0 <= i < |cs| ==> Settled(ApplyCalls(t, cs), cs[i])
    decreases |cs|
  {
    if cs != [] {
      var prefix := cs[..|cs| - 1];
      var last := cs[|cs| - 1];
      DeletesSettle(t, prefix);
      var mid := ApplyCalls(t, prefix);
      var after := ApplyCalls(t, cs);
      assert after == ApplyRef(mid, last).table;
      ApplyRefFrame(mid, last);
      forall i | 0 <= i < |cs| ensures Settled(after, cs[i]) {
        if i < |cs| - 1 {
          assert cs[i] == prefix[i];
        }
      }
    }
  }

  /** A run of DELETEs over route targets settled for each of its calls
      keeps the objects. */
  lemma {:induction false} SettledDeletesKeepObjects(t: TargetTable, cs: seq<RefCall>)
    requires forall i :: 0 <= i < |cs| ==> cs[i].op == Delete && Settled(t, cs[i])
    ensures ApplyCalls(t, cs).objects == t.objects
    decreases |cs|
  {
    if cs != [] {
      var prefix := cs[..|cs| - 1];
      var last := cs[|cs| - 1];
      forall i | 0 <= i < |prefix| ensures prefix[i] == cs[i] { }
      SettledDeletesKeepObjects(t, prefix);
      var mid := ApplyCalls(t, prefix);
      assert Settled(mid, last);
      SettledDeleteKeepsObjects(mid, last);
    }
  }

  /** Running a DELETE pass twice leaves the same route-target objects as
      running it once (the uuid counter may move on). */
  lemma RepeatedDeleteRunKeepsObjects(t: TargetTable, cs: seq<RefCall>)
    requires forall i :: 0 <= i < |cs| ==> cs[i].op == Delete
    ensures ApplyCalls(ApplyCalls(t, cs), cs).objects == ApplyCalls(t, cs).objects
  {
    DeletesSettle(t, cs);
    SettledDeletesKeepObjects(ApplyCalls(t, cs), cs);
  }

  /** An ADD of a route target already in place for it changes nothing. */
  lemma InstalledAddKeepsTable(t: TargetTable, c: RefCall)
    requires c.op == Add && Installed(t, c)
    ensures ApplyRef(t, c).table == t
  {
    var name := ObjectName(c.fq);
    var obj := t.objects[name];
    assert Locate(t, name) == Located(t, obj.uuid);
    assert RefsAfter(obj.backRefs, Add, c.ri) == obj.backRefs;
    assert obj.(backRefs := obj.backRefs) == obj;
    assert t.objects[name := obj] == t.objects;
  }

  /** A run of ADDs over route targets all in place for their calls changes
      nothing. */
  lemma {:induction false} InstalledAddsKeepTable(t: TargetTable, cs: seq<RefCall>)
    requires forall i :: 0 <= i < |cs| ==> cs[i].op == Add && Installed(t, cs[i])
    ensures ApplyCalls(t, cs) == t
    decreases |cs|
  {
    if cs != [] {
      var prefix := cs[..|cs| - 1];
      var last := cs[|cs| - 1];
      forall i | 0 <= i < |prefix| ensures prefix[i] == cs[i] { }
      InstalledAddsKeepTable(t, prefix);
      InstalledAddKeepsTable(t, last);
    }
  }

  /** Running an ADD pass twice leaves the table as running it once:
      re-association is idempotent. */
  lemma RepeatedAddRunIsIdempotent(t: TargetTable, cs: seq<RefCall>)
    requires forall i :: 0 <= i < |cs| ==> cs[i].op == Add
    ensures ApplyCalls(ApplyCalls(t, cs), cs) == ApplyCalls(t, cs)
  {
    AddsInstallRefs(t, cs);
    InstalledAddsKeepTable(ApplyCalls(t, cs), cs);
  }

  /** An ADD pass cut short after its first k calls and then run again from
      the start ends in the same table as one uninterrupted pass. */
  lemma RetriedAddRunIsIdempotent(t: TargetTable, cs: seq<RefCall>, k: nat)
    requires forall i :: 0 <= i < |cs| ==> cs[i].op == Add
    requires k <= |cs|
    ensures ApplyCalls(ApplyCalls(t, cs[..k]), cs) == ApplyCalls(t, cs)
  {
    var done, rest := cs[..k], cs[k..];
    assert cs == done + rest;
    forall i | 0 <= i < |done| ensures done[i].op == Add {
      assert done[i] == cs[i];
    }
    var u := ApplyCalls(t, done);
    AddsInstallRefs(t, done);
    InstalledAddsKeepTable(u, done);
    ApplyCallsAppend(u, done, rest);
    ApplyCallsAppend(t, done, rest);
  }

  /** A routing-instance ref of a virtual network. */
  datatype RiRef = RiRef(to: seq<string>, uuid: Uuid)

  /** A virtual network as `show('Virtual Network', id)` returns it. */
  datatype VirtualNetwork = VirtualNetwork(fqName: seq<string>, routingInstances: seq<RiRef>)

  /** The index of the first ref pointing to `to`, if any. */
  function FirstRef(refs: seq<RiRef>, to: seq<string>): (r: Option<nat>)
    ensures r.Some? ==> r.value < |refs| && refs[r.value].to == to
    ensures r.Some? ==> forall j :: 0 <= j < r.value ==> refs[j].to != to
    ensures r.None? ==> forall j :: 0 <= j < |refs| ==> refs[j].to != to
  {
    if refs == [] then None
    else if refs[0].to == to then Some(0)
    else match FirstRef(refs[1..], to)
      case None => None
      case Some(i) => Some(i + 1)
  }

  /** `_get_ri_id_of_network`: the routing instance of a network is the
      first ref whose target is the network's fq-name with its last
      component repeated. A missing network or an empty fq-name fails with
      NetworkNotFound; no matching ref gives None, not a failure. */
  function RiOfNetwork(vns: map<NetworkId, VirtualNetwork>, net: NetworkId): (r: Result<Option<Uuid>, Error>)
    ensures r.Failure? <==> net !in vns || vns[net].fqName == []
    ensures r.Failure? ==> r.error == NetworkNotFound(net)
    ensures r.Success? && r.value.Some? ==>
      var fq := vns[net].fqName;
      var refs := vns[net].routingInstances;
      exists i :: 0 <= i < |refs| && refs[i].to == fq + [fq[|fq| - 1]] && refs[i].uuid == r.value.value &&
        forall j :: 0 <= j < i ==> refs[j].to != fq + [fq[|fq| - 1]]
    ensures r.Success? && r.value.None? ==>
      var fq := vns[net].fqName;
      forall j :: 0 <= j < |vns[net].routingInstances| ==> vns[net].routingInstances[j].to != fq + [fq[|fq| - 1]]
  {
    if net !in vns || vns[net].fqName == [] then Failure(NetworkNotFound(net))
    else
      var vn := vns[net];
      match FirstRef(vn.routingInstances, vn.fqName + [vn.fqName[|vn.fqName| - 1]])
      case None => Success(None)
      case Some(i) => Success(Some(vn.routingInstances[i].uuid))
  }

  /** One role pass: a reference update per route target of the list. */
  function RoleCalls(op: Op, ri: Option<Uuid>, targets: seq<string>, tag: Tag): seq<RefCall> {
    seq(|targets|, j requires 0 <= j < |targets| => RefCall(op, ri, TargetFqName(targets[j]), tag))
  }

  /** The calls for one network: for an L3 VPN the untagged pass over
      route_targets, then the import pass, then the export pass; for any
      other type none. */
  function NetworkCalls(op: Op, ri: Option<Uuid>, b: Bgpvpn): seq<RefCall> {
    if b.vpnType == L3 then
      RoleCalls(op, ri, b.routeTargets, Untagged)
      + RoleCalls(op, ri, b.importTargets, Import)
      + RoleCalls(op, ri, b.exportTargets, Export)
    else []
  }

  /** The per-network call sequence has exactly |route_targets| untagged
      calls, then |import_targets| import calls, then |export_targets|
      export calls, all with the same operation and routing instance. */
  lemma NetworkCallsShape(op: Op, ri: Option<Uuid>, b: Bgpvpn)
    ensures b.vpnType != L3 ==> NetworkCalls(op, ri, b) == []
    ensures b.vpnType == L3 ==>
      var cs := NetworkCalls(op, ri, b);
      var nr, ni, ne := |b.routeTargets|, |b.importTargets|, |b.exportTargets|;
      && |cs| == nr + ni + ne
      && (forall j :: 0 <= j < nr ==> cs[j] == RefCall(op, ri, TargetFqName(b.routeTargets[j]), Untagged))
      && (forall j :: 0 <= j < ni ==> cs[nr + j] == RefCall(op, ri, TargetFqName(b.importTargets[j]), Import))
      && (forall j :: 0 <= j < ne ==> cs[nr + ni + j] == RefCall(op, ri, TargetFqName(b.exportTargets[j]), Export))
  {
    if b.vpnType == L3 {
      RoleCallsAt(op, ri, b.routeTargets, Untagged);
      RoleCallsAt(op, ri, b.importTargets, Import);
      RoleCallsAt(op, ri, b.exportTargets, Export);
      ConcatAt(RoleCalls(op, ri, b.routeTargets, Untagged), RoleCalls(op, ri, b.importTargets, Import),
               RoleCalls(op, ri, b.exportTargets, Export));
    }
  }

  /** The j-th call of a role pass is for the j-th route target. */
  lemma RoleCallsAt(op: Op, ri: Option<Uuid>, targets: seq<string>, tag: Tag)
    ensures |RoleCalls(op, ri, targets, tag)| == |targets|
    ensures forall j :: 0 <= j < |targets| ==> RoleCalls(op, ri, targets, tag)[j] == RefCall(op, ri, TargetFqName(targets[j]), tag)
  {
  }

  /** A role pass over one more route target ends with that target's call. */
  lemma RoleCallsSnoc(op: Op, ri: Option<Uuid>, rts: seq<string>, tag: Tag, j: nat)
    requires j < |rts|
    ensures RoleCalls(op, ri, rts[..j + 1], tag) == RoleCalls(op, ri, rts[..j], tag) + [RefCall(op, ri, TargetFqName(rts[j]), tag)]
  {
    RoleCallsAt(op, ri, rts[..j + 1], tag);
    RoleCallsAt(op, ri, rts[..j], tag);
  }

  /** Indexing into the concatenation of three call sequences. */
  lemma ConcatAt(x: seq<RefCall>, y: seq<RefCall>, z: seq<RefCall>)
    ensures |x + y + z| == |x| + |y| + |z|
    ensures forall j :: 0 <= j < |x| ==> (x + y + z)[j] == x[j]
    ensures forall j :: 0 <= j < |y| ==> (x + y + z)[|x| + j] == y[j]
    ensures forall j :: 0 <= j < |z| ==> (x + y + z)[|x| + |y| + j] == z[j]
  {
  }

  /** The calls a reconciliation emitted, and the failure that stopped it, if any. */
  datatype Emission = Emission(calls: seq<RefCall>, error: Option<Error>)

  /** Run `next` after `first`, unless `first` failed. */
  function Then(first: Emission, next: Emission): Emission {
    if first.error.Some? then first else Emission(first.calls + next.calls, next.error)
  }

  /** Resolve a network's routing instance, then emit its calls. */
  function NetworkEmission(op: Op, b: Bgpvpn, net: NetworkId, vns: map<NetworkId, VirtualNetwork>): Emission {
    match RiOfNetwork(vns, net)
    case Failure(e) => Emission([], Some(e))
    case Success(ri) => Emission(NetworkCalls(op, ri, b), None)
  }

  /** `_set_bgpvpn_association` over a list of networks, in order, stopping
      at the first network that cannot be resolved. */
  function Fanout(op: Op, b: Bgpvpn, nets: seq<NetworkId>, vns: map<NetworkId, VirtualNetwork>): Emission
    decreases |nets|
  {
    if nets == [] then Emission([], None)
    else Then(Fanout(op, b, nets[..|nets| - 1], vns), NetworkEmission(op, b, nets[|nets| - 1], vns))
  }

  /** The networks `_set_bgpvpn_association` works on: the given one if it
      is truthy, otherwise all of the record's networks. */
  function Targets(b: Bgpvpn, net: NetworkId): seq<NetworkId> {
    if net != "" then [net] else b.networks
  }

  /** One `_set_bgpvpn_association(op, b, n)` per network of the list, in order. */
  function FanoutEach(op: Op, b: Bgpvpn, nets: seq<NetworkId>, vns: map<NetworkId, VirtualNetwork>): Emission
    decreases |nets|
  {
    if nets == [] then Emission([], None)
    else Then(FanoutEach(op, b, nets[..|nets| - 1], vns), Fanout(op, b, Targets(b, nets[|nets| - 1]), vns))
  }

  /** Reconciling one more network continues the reconciliation of the prefix. */
  lemma FanoutStep(op: Op, b: Bgpvpn, nets: seq<NetworkId>, vns: map<NetworkId, VirtualNetwork>, i: nat)
    requires i < |nets|
    ensures Fanout(op, b, nets[..i + 1], vns) == Then(Fanout(op, b, nets[..i], vns), NetworkEmission(op, b, nets[i], vns))
  {
    assert nets[..i + 1][..i] == nets[..i];
  }

  lemma FanoutEachStep(op: Op, b: Bgpvpn, nets: seq<NetworkId>, vns: map<NetworkId, VirtualNetwork>, i: nat)
    requires i < |nets|
    ensures FanoutEach(op, b, nets[..i + 1], vns) == Then(FanoutEach(op, b, nets[..i], vns), Fanout(op, b, Targets(b, nets[i]), vns))
  {
    assert nets[..i + 1][..i] == nets[..i];
  }

  /** Once a prefix of the networks failed, the rest adds nothing. */
  lemma {:induction false} FanoutStopsAtError(op: Op, b: Bgpvpn, nets: seq<NetworkId>, vns: map<NetworkId, VirtualNetwork>, i: nat)
    requires i <= |nets| && Fanout(op, b, nets[..i], vns).error.Some?
    ensures Fanout(op, b, nets, vns) == Fanout(op, b, nets[..i], vns)
    decreases |nets| - i
  {
    if i < |nets| {
      var prefix := nets[..|nets| - 1];
      assert prefix[..i] == nets[..i];
      FanoutStopsAtError(op, b, prefix, vns, i);
    } else {
      assert nets[..i] == nets;
    }
  }

  lemma {:induction false} FanoutEachStopsAtError(op: Op, b: Bgpvpn, nets: seq<NetworkId>, vns: map<NetworkId, VirtualNetwork>, i: nat)
    requires i <= |nets| && FanoutEach(op, b, nets[..i], vns).error.Some?
    ensures FanoutEach(op, b, nets, vns) == FanoutEach(op, b, nets[..i], vns)
    decreases |nets| - i
  {
    if i < |nets| {
      var prefix := nets[..|nets| - 1];
      assert prefix[..i] == nets[..i];
      FanoutEachStopsAtError(op, b, prefix, vns, i);
    } else {
      assert nets[..i] == nets;
    }
  }

  /** Every call for one network carries the operation and the routing instance. */
  lemma NetworkCallsCarry(op: Op, ri: Option<Uuid>, b: Bgpvpn)
    ensures forall c :: c in NetworkCalls(op, ri, b) ==> c.op == op && c.ri == ri
  {
    if b.vpnType == L3 {
      RoleCallsCarry(op, ri, b.routeTargets, Untagged);
      RoleCallsCarry(op, ri, b.importTargets, Import);
      RoleCallsCarry(op, ri, b.exportTargets, Export);
    }
  }

  lemma RoleCallsCarry(op: Op, ri: Option<Uuid>, targets: seq<string>, tag: Tag)
    ensures forall c :: c in RoleCalls(op, ri, targets, tag) ==> c.op == op && c.ri == ri && c.tag == tag
  {
    RoleCallsAt(op, ri, targets, tag);
  }

  /** The number of calls an L3 record emits per network. */
  function CallsPerNetwork(b: Bgpvpn): nat {
    if b.vpnType == L3 then |b.routeTargets| + |b.importTargets| + |b.exportTargets| else 0
  }

  /** A completed reconciliation emits the per-network calls for every
      network: |nets| times the number of route targets of all three roles
      for an L3 record, and none for any other type. */
  lemma {:induction false} FanoutCallCount(op: Op, b: Bgpvpn, nets: seq<NetworkId>, vns: map<NetworkId, VirtualNetwork>)
    requires Fanout(op, b, nets, vns).error.None?
    ensures |Fanout(op, b, nets, vns).calls| == |nets| * CallsPerNetwork(b)
    decreases |nets|
  {
    if nets != [] {
      var prefix := nets[..|nets| - 1];
      var pe := Fanout(op, b, prefix, vns);
      var ne := NetworkEmission(op, b, nets[|nets| - 1], vns);
      assert Fanout(op, b, nets, vns) == Then(pe, ne);
      assert pe.error.None? && ne.error.None?;
      FanoutCallCount(op, b, prefix, vns);
      NetworkCallsShape(op, RiOfNetwork(vns, nets[|nets| - 1]).value, b);
      assert |ne.calls| == CallsPerNetwork(b);
      var k, n := CallsPerNetwork(b), |prefix|;
      assert |nets| == n + 1;
      assert (n + 1) * k == n * k + k;
    }
  }

  /** Every call of a reconciliation carries its operation. */
  lemma {:induction false} FanoutCarriesOp(op: Op, b: Bgpvpn, nets: seq<NetworkId>, vns: map<NetworkId, VirtualNetwork>)
    ensures forall c :: c in Fanout(op, b, nets, vns).calls ==> c.op == op
    decreases |nets|
  {
    if nets != [] {
      FanoutCarriesOp(op, b, nets[..|nets| - 1], vns);
    }
  }

  /** The calls of a reconciliation, position by position, carry its operation. */
  lemma FanoutCarriesOpAt(op: Op, b: Bgpvpn, nets: seq<NetworkId>, vns: map<NetworkId, VirtualNetwork>)
    ensures forall i :: 0 <= i < |Fanout(op, b, nets, vns).calls| ==> Fanout(op, b, nets, vns).calls[i].op == op
  {
    var cs := Fanout(op, b, nets, vns).calls;
    FanoutCarriesOp(op, b, nets, vns);
    forall i | 0 <= i < |cs| ensures cs[i].op == op {
      assert cs[i] in cs;
    }
  }

  /** After an ADD reconciliation every route target it named exists and
      lists the routing instance of each call that named it. */
  lemma AddFanoutInstalls(t: TargetTable, b: Bgpvpn, nets: seq<NetworkId>, vns: map<NetworkId, VirtualNetwork>)
    ensures var cs := Fanout(Add, b, nets, vns).calls;
      forall i :: 0 <= i < |cs| ==> Installed(ApplyCalls(t, cs), cs[i])
  {
    FanoutCarriesOpAt(Add, b, nets, vns);
    AddsInstallRefs(t, Fanout(Add, b, nets, vns).calls);
  }

  /** An ADD reconciliation run again from the start, after a first run
      that stopped after any number of its calls or completed, ends in the
      table one complete run leaves. */
  lemma AddFanoutRetryIsIdempotent(t: TargetTable, b: Bgpvpn, nets: seq<NetworkId>,
                                   vns: map<NetworkId, VirtualNetwork>, k: nat)
    requires k <= |Fanout(Add, b, nets, vns).calls|
    ensures var cs := Fanout(Add, b, nets, vns).calls;
      ApplyCalls(ApplyCalls(t, cs[..k]), cs) == ApplyCalls(t, cs)
  {
    FanoutCarriesOpAt(Add, b, nets, vns);
    RetriedAddRunIsIdempotent(t, Fanout(Add, b, nets, vns).calls, k);
  }

  /** After a DELETE reconciliation every route target it named is settled
      for each call that named it. */
  lemma DeleteFanoutSettles(t: TargetTable, b: Bgpvpn, nets: seq<NetworkId>, vns: map<NetworkId, VirtualNetwork>)
    ensures var cs := Fanout(Delete, b, nets, vns).calls;
      forall i :: 0 <= i < |cs| ==> Settled(ApplyCalls(t, cs), cs[i])
  {
    var cs := Fanout(Delete, b, nets, vns).calls;
    FanoutCarriesOpAt(Delete, b, nets, vns);
    DeletesSettle(t, cs);
  }

  /** A DELETE reconciliation run twice leaves the route-target objects one
      run leaves. */
  lemma RepeatedDeleteFanoutKeepsObjects(t: TargetTable, b: Bgpvpn, nets: seq<NetworkId>,
                                         vns: map<NetworkId, VirtualNetwork>)
    ensures var cs := Fanout(Delete, b, nets, vns).calls;
      ApplyCalls(ApplyCalls(t, cs), cs).objects == ApplyCalls(t, cs).objects
  {
    var cs := Fanout(Delete, b, nets, vns).calls;
    FanoutCarriesOpAt(Delete, b, nets, vns);
    RepeatedDeleteRunKeepsObjects(t, cs);
  }

  /** The same calls with another operation. */
  function WithOp(cs: seq<RefCall>, op: Op): seq<RefCall> {
    seq(|cs|, j requires 0 <= j < |cs| => cs[j].(op := op))
  }

  /** The j-th call of WithOp(cs, op) is the j-th call of cs with operation op. */
  lemma WithOpAt(cs: seq<RefCall>, op: Op)
    ensures |WithOp(cs, op)| == |cs|
    ensures forall j :: 0 <= j < |cs| ==> WithOp(cs, op)[j] == cs[j].(op := op)
  {
  }

  lemma WithOpAppend(x: seq<RefCall>, y: seq<RefCall>, op: Op)
    ensures WithOp(x + y, op) == WithOp(x, op) + WithOp(y, op)
  {
  }

  lemma RoleCallsMirror(ri: Option<Uuid>, targets: seq<string>, tag: Tag)
    ensures RoleCalls(Delete, ri, targets, tag) == WithOp(RoleCalls(Add, ri, targets, tag), Delete)
  {
  }

  /** The calls for one network under DELETE are its ADD calls with the operation flipped. */
  lemma NetworkCallsMirror(ri: Option<Uuid>, b: Bgpvpn)
    ensures NetworkCalls(Delete, ri, b) == WithOp(NetworkCalls(Add, ri, b), Delete)
  {
    if b.vpnType == L3 {
      var r1, r2, r3 := RoleCalls(Add, ri, b.routeTargets, Untagged), RoleCalls(Add, ri, b.importTargets, Import),
        RoleCalls(Add, ri, b.exportTargets, Export);
      RoleCallsMirror(ri, b.routeTargets, Untagged);
      RoleCallsMirror(ri, b.importTargets, Import);
      RoleCallsMirror(ri, b.exportTargets, Export);
      WithOpAppend(r1 + r2, r3, Delete);
      WithOpAppend(r1, r2, Delete);
    }
  }

  /** DELETE-reconciling a record emits exactly the calls ADD-reconciling it
      emits, with the operation flipped, and fails at the same network. */
  lemma {:induction false} FanoutDeleteMirrorsAdd(b: Bgpvpn, nets: seq<NetworkId>, vns: map<NetworkId, VirtualNetwork>)
    ensures Fanout(Delete, b, nets, vns).calls == WithOp(Fanout(Add, b, nets, vns).calls, Delete)
    ensures Fanout(Delete, b, nets, vns).error == Fanout(Add, b, nets, vns).error
    decreases |nets|
  {
    if nets != [] {
      var prefix := nets[..|nets| - 1];
      FanoutDeleteMirrorsAdd(b, prefix, vns);
      var last := nets[|nets| - 1];
      var pa := Fanout(Add, b, prefix, vns);
      if pa.error.None? && RiOfNetwork(vns, last).Success? {
        var ri := RiOfNetwork(vns, last).value;
        NetworkCallsMirror(ri, b);
        WithOpAppend(pa.calls, NetworkCalls(Add, ri, b), Delete);
      }
    }
  }
}
