/** The BGP VPN record shared by every driver: its attributes, partial
    updates and how they merge, the key-level difference of two records,
    caller contexts, list filters and the named failures. */
module Records {

  datatype Option<+T> = None | Some(value: T) {
    function GetOr(default: T): T {
      if Some? then value else default
    }
  }

  datatype Result<+T, +E> = Success(value: T) | Failure(error: E)

  datatype Outcome<+E> = Pass | Fail(error: E)

  /** Identifiers handed out by the control plane (record ids, route-target
      and routing-instance uuids). Only their freshness matters. */
  type Uuid = nat

  /** A network id; the empty string stands for every falsy id (None or ""). */
  type NetworkId = string

  /** The only VPN type the OpenContrail backend supports. */
  const L3: string := "l3"

  datatype Error =
    | MissingRouteTarget
    | TypeNotSupported(vpnType: string)
    | RDNotSupported
    | AdminRequired
    | NotFound(id: Uuid)
    | NetworkNotFound(network: NetworkId)
      /** A Python error other than the intended one (see GetBgpvpnAsWritten). */
    | InternalError

  datatype Context = Context(isAdmin: bool, tenantId: string)

  /** A BGP VPN as the driver stores and returns it. */
  datatype Bgpvpn = Bgpvpn(
    id: Uuid,
    tenantId: string,
    name: string,
    vpnType: string,
    routeTargets: seq<string>,
    importTargets: seq<string>,
    exportTargets: seq<string>,
    routeDistinguishers: seq<string>,
    autoAggregate: bool,
    networks: seq<NetworkId>)

  /** The keys of a record, as the dictionary the source passes around has them. */
  datatype Key =
    | IdKey | TenantIdKey | NameKey | TypeKey
    | RouteTargetsKey | ImportTargetsKey | ExportTargetsKey
    | RouteDistinguishersKey | AutoAggregateKey | NetworksKey

  const AllKeys: set<Key> :=
    {IdKey, TenantIdKey, NameKey, TypeKey, RouteTargetsKey, ImportTargetsKey,
     ExportTargetsKey, RouteDistinguishersKey, AutoAggregateKey, NetworksKey}

  /** The route-target family of keys, whose change triggers re-reconciliation. */
  const RouteTargetKeys: set<Key> := {RouteTargetsKey, ImportTargetsKey, ExportTargetsKey}

  datatype Value = Number(n: nat) | Text(s: string) | Texts(items: seq<string>) | Flag(b: bool)

  /** `record[key]`. */
  function Field(b: Bgpvpn, k: Key): Value {
    match k
    case IdKey => Number(b.id)
    case TenantIdKey => Text(b.tenantId)
    case NameKey => Text(b.name)
    case TypeKey => Text(b.vpnType)
    case RouteTargetsKey => Texts(b.routeTargets)
    case ImportTargetsKey => Texts(b.importTargets)
    case ExportTargetsKey => Texts(b.exportTargets)
    case RouteDistinguishersKey => Texts(b.routeDistinguishers)
    case AutoAggregateKey => Flag(b.autoAggregate)
    case NetworksKey => Texts(b.networks)
  }

  /** A partial record: the keys present in an update request. */
  datatype Patch = Patch(
    id: Option<Uuid>,
    tenantId: Option<string>,
    name: Option<string>,
    vpnType: Option<string>,
    routeTargets: Option<seq<string>>,
    importTargets: Option<seq<string>>,
    exportTargets: Option<seq<string>>,
    routeDistinguishers: Option<seq<string>>,
    autoAggregate: Option<bool>,
    networks: Option<seq<NetworkId>>)

  /** The value a patch gives a key, if the patch has that key. */
  function PatchField(p: Patch, k: Key): Option<Value> {
    match k
    case IdKey => if p.id.Some? then Some(Number(p.id.value)) else None
    case TenantIdKey => if p.tenantId.Some? then Some(Text(p.tenantId.value)) else None
    case NameKey => if p.name.Some? then Some(Text(p.name.value)) else None
    case TypeKey => if p.vpnType.Some? then Some(Text(p.vpnType.value)) else None
    case RouteTargetsKey => if p.routeTargets.Some? then Some(Texts(p.routeTargets.value)) else None
    case ImportTargetsKey => if p.importTargets.Some? then Some(Texts(p.importTargets.value)) else None
    case ExportTargetsKey => if p.exportTargets.Some? then Some(Texts(p.exportTargets.value)) else None
    case RouteDistinguishersKey =>
      if p.routeDistinguishers.Some? then Some(Texts(p.routeDistinguishers.value)) else None
    case AutoAggregateKey => if p.autoAggregate.Some? then Some(Flag(p.autoAggregate.value)) else None
    case NetworksKey => if p.networks.Some? then Some(Texts(p.networks.value)) else None
  }

  /** A patch carrying every key of a record, as when the whole record
      dictionary is passed back as an update. */
  function WholeRecord(b: Bgpvpn): Patch {
    Patch(Some(b.id), Some(b.tenantId), Some(b.name), Some(b.vpnType),
          Some(b.routeTargets), Some(b.importTargets), Some(b.exportTargets),
          Some(b.routeDistinguishers), Some(b.autoAggregate), Some(b.networks))
  }

  /** `merged = prior.copy(); merged.update(patch)`: every key the patch has
      takes the patch's value, every other key keeps the prior one. */
  function Merge(prior: Bgpvpn, p: Patch): (merged: Bgpvpn) {
    Bgpvpn(
      p.id.GetOr(prior.id),
      p.tenantId.GetOr(prior.tenantId),
      p.name.GetOr(prior.name),
      p.vpnType.GetOr(prior.vpnType),
      p.routeTargets.GetOr(prior.routeTargets),
      p.importTargets.GetOr(prior.importTargets),
      p.exportTargets.GetOr(prior.exportTargets),
      p.routeDistinguishers.GetOr(prior.routeDistinguishers),
      p.autoAggregate.GetOr(prior.autoAggregate),
      p.networks.GetOr(prior.networks))
  }

  /** The merge is dictionary update: every key the patch has takes the
      patch's value, every other key keeps the prior one (a partial update
      keeps the untouched fields). */
  lemma MergeOverwritesPatchedKeys(prior: Bgpvpn, p: Patch)
    ensures forall k :: Field(Merge(prior, p), k) == PatchField(p, k).GetOr(Field(prior, k))
  {
    forall k ensures Field(Merge(prior, p), k) == PatchField(p, k).GetOr(Field(prior, k)) {
      match k
      case IdKey =>
      case TenantIdKey =>
      case NameKey =>
      case TypeKey =>
      case RouteTargetsKey =>
      case ImportTargetsKey =>
      case ExportTargetsKey =>
      case RouteDistinguishersKey =>
      case AutoAggregateKey =>
      case NetworksKey =>
    }
  }

  lemma AllKeysCover()
    ensures forall k :: k in AllKeys
  {
    forall k ensures k in AllKeys {
      match k
      case IdKey =>
      case TenantIdKey =>
      case NameKey =>
      case TypeKey =>
      case RouteTargetsKey =>
      case ImportTargetsKey =>
      case ExportTargetsKey =>
      case RouteDistinguishersKey =>
      case AutoAggregateKey =>
      case NetworksKey =>
    }
  }

  /** Passing a whole record as the patch replaces the prior record by it. */
  lemma MergeWholeRecord(prior: Bgpvpn, b: Bgpvpn)
    ensures Merge(prior, WholeRecord(b)) == b
  {
  }

  /** The keys whose values differ between two records (the changed keys of
      the difference helper; with every key present in both records, no key
      is ever added or removed). */
  function ChangedKeys(a: Bgpvpn, b: Bgpvpn): (changed: set<Key>)
    ensures forall k :: k in changed <==> Field(a, k) != Field(b, k)
    ensures changed == {} <==> a == b
  {
    var changed := set k | k in AllKeys && Field(a, k) != Field(b, k);
    AllKeysCover();
    assert a != b ==> exists k :: k in changed by {
      if a != b {
        if a.id != b.id { assert IdKey in changed; }
        else if a.tenantId != b.tenantId { assert TenantIdKey in changed; }
        else if a.name != b.name { assert NameKey in changed; }
        else if a.vpnType != b.vpnType { assert TypeKey in changed; }
        else if a.routeTargets != b.routeTargets { assert RouteTargetsKey in changed; }
        else if a.importTargets != b.importTargets { assert ImportTargetsKey in changed; }
        else if a.exportTargets != b.exportTargets { assert ExportTargetsKey in changed; }
        else if a.routeDistinguishers != b.routeDistinguishers { assert RouteDistinguishersKey in changed; }
        else if a.autoAggregate != b.autoAggregate { assert AutoAggregateKey in changed; }
        else { assert NetworksKey in changed; }
      }
    }
    changed
  }

  /** Whether a caller may see a record: admins see every record, other
      callers only their own tenant's. */
  predicate Visible(ctx: Context, b: Bgpvpn) {
    ctx.isAdmin || b.tenantId == ctx.tenantId
  }

  /** List filters: a record matches when, for every filtered key, its value
      is one of the accepted values. No filter matches every record. */
  type Filters = map<Key, seq<Value>>

  predicate Matches(b: Bgpvpn, filters: Filters) {
    forall k :: k in filters ==> Field(b, k) in filters[k]
  }

  /** The members of a list, as `set(l)`. */
  function Members(s: seq<NetworkId>): (m: set<NetworkId>)
    ensures forall x :: x in m <==> x in s
  {
    set x | x in s
  }

  predicate NoDuplicates<T(==)>(s: seq<T>) {
    forall i, j :: 0 <= i < j < |s| ==> s[i] != s[j]
  }

  /** `list(set)`: the list holds each member of the set once, in some order. */
  predicate Enumerates(s: seq<NetworkId>, m: set<NetworkId>) {
    Members(s) == m && NoDuplicates(s)
  }

  /** `l.remove(x)`: drops the first occurrence of x, or fails (Python's
      ValueError) when x is not in the list. */
  function RemoveFirst<T(==)>(s: seq<T>, x: T): (r: Option<seq<T>>)
    ensures r.None? <==> x !in s
  {
    if s == [] then None
    else if s[0] == x then
      assert s == [s[0]] + s[1..];
      Some(s[1..])
    else
      match RemoveFirst(s[1..], x)
      case None => None
      case Some(t) =>
        assert s == [s[0]] + s[1..];
        Some([s[0]] + t)
  }

  /** The removal keeps the list's order: it is the list with the element at
      the first index holding x cut out. */
  lemma {:induction false} RemoveFirstCutsFirstOccurrence<T>(s: seq<T>, x: T, i: nat)
    requires i < |s| && s[i] == x && x !in s[..i]
    ensures RemoveFirst(s, x) == Some(s[..i] + s[i + 1..])
  {
    if i == 0 {
      assert s[..0] + s[1..] == s[1..];
    } else {
      assert s[0] in s[..i];
      var tail := s[1..];
      assert tail[..i - 1] == s[1..i];
      assert x !in tail[..i - 1];
      RemoveFirstCutsFirstOccurrence(tail, x, i - 1);
      assert tail[i..] == s[i + 1..];
      calc {
        RemoveFirst(s, x);
        Some([s[0]] + (tail[..i - 1] + tail[i..]));
        { assert [s[0]] + (tail[..i - 1] + tail[i..]) == ([s[0]] + tail[..i - 1]) + tail[i..]; }
        Some(([s[0]] + tail[..i - 1]) + tail[i..]);
        { assert [s[0]] + tail[..i - 1] == s[..i]; }
        Some(s[..i] + s[i + 1..]);
      }
    }
  }

  /** The removal takes away exactly one occurrence of x and nothing else. */
  lemma {:induction false} RemoveFirstTakesOneOccurrence<T>(s: seq<T>, x: T)
    requires x in s
    ensures multiset(RemoveFirst(s, x).value) == multiset(s) - multiset{x}
  {
    assert s == [s[0]] + s[1..];
    if s[0] != x {
      RemoveFirstTakesOneOccurrence(s[1..], x);
    }
  }

  /** So every other element stays listed, and x stays listed exactly when it
      occurred more than once. */
  lemma RemoveFirstMembers<T>(s: seq<T>, x: T)
    requires x in s
    ensures forall y :: y != x ==> (y in RemoveFirst(s, x).value <==> y in s)
    ensures x in RemoveFirst(s, x).value <==> multiset(s)[x] > 1
  {
    RemoveFirstTakesOneOccurrence(s, x);
    var r := RemoveFirst(s, x).value;
    forall y | y != x ensures y in r <==> y in s {
      assert y in r <==> multiset(r)[y] > 0;
      assert y in s <==> multiset(s)[y] > 0;
    }
    assert x in r <==> multiset(r)[x] > 0;
  }

  /** Associating a network that was not listed and then removing it gives
      back the original list. */
  lemma {:induction false} AppendThenRemoveFirst<T>(s: seq<T>, x: T)
    requires x !in s
    ensures RemoveFirst(s + [x], x) == Some(s)
  {
    var t := s + [x];
    assert t[..|s|] == s;
    assert t[|s| + 1..] == [];
    assert s + [] == s;
    RemoveFirstCutsFirstOccurrence(t, x, |s|);
  }
}
