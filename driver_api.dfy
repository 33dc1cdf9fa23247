/** The persist-then-notify template of database-backed BGP VPN drivers:
    each lifecycle operation calls the plugin database and, only when that
    call succeeds, exactly one postcommit hook with the stored result. */
module DriverApi {
  import opened Records

  /** A call a driver makes on the plugin database. */
  datatype StoreCall =
    | CreateCall(draft: Bgpvpn)
    | GetCall(id: Uuid)
    | GetAllCall(filters: Filters)
    | UpdateCall(id: Uuid, patch: Patch)
    | DeleteCall(id: Uuid)
    | AssociateCall(id: Uuid, network: NetworkId)
    | DisassociateCall(id: Uuid, network: NetworkId)

  /** A postcommit hook invocation and its arguments. */
  datatype Hook =
    | CreatePostcommit(record: Bgpvpn)
    | UpdatePostcommit(before: Bgpvpn, after: Bgpvpn)
    | DeletePostcommit(record: Bgpvpn)
    | AssociatePostcommit(id: Uuid, network: NetworkId)
    | DisassociatePostcommit(id: Uuid, network: NetworkId)

  datatype Event = Store(call: StoreCall) | Notify(hook: Hook)

  /** The hook that belongs to a database call: create and update hand over
      the stored record, delete the removed one, association calls the same
      id and network. */
  predicate Follows(call: StoreCall, hook: Hook) {
    match hook
    case CreatePostcommit(b) => call.CreateCall?
    case UpdatePostcommit(_, after) => call.UpdateCall? && after.id == call.id
    case DeletePostcommit(b) => call.DeleteCall? && b.id == call.id
    case AssociatePostcommit(id, net) => call == AssociateCall(id, net)
    case DisassociatePostcommit(id, net) => call == DisassociateCall(id, net)
  }

  /** Every hook in the trace comes right after the database call it belongs to. */
  ghost predicate HooksFollowStores(trace: seq<Event>) {
    forall i :: 0 <= i < |trace| && trace[i].Notify? ==>
      0 < i && trace[i - 1].Store? && Follows(trace[i - 1].call, trace[i].hook)
  }

  /** Appending a database call keeps every hook right after its database call. */
  lemma AppendStore(trace: seq<Event>, call: StoreCall)
    ensures HooksFollowStores(trace) ==> HooksFollowStores(trace + [Store(call)])
  {
  }

  /** So does appending a database call together with its own hook. */
  lemma AppendStoreAndHook(trace: seq<Event>, call: StoreCall, hook: Hook)
    requires Follows(call, hook)
    ensures HooksFollowStores(trace) ==> HooksFollowStores(trace + [Store(call), Notify(hook)])
  {
  }

  /** The plugin database the driver persists into. Its own code is not part
      of this model; it behaves as its unit tests expect: a partial update
      keeps the fields it does not name, lookups after a delete fail, and
      records can be found by network. */
  class PluginDb {
    var records: map<Uuid, Bgpvpn>
    var nextId: nat

    ghost predicate Valid()
      reads this
    {
      forall k :: k in records ==> records[k].id == k && k < nextId
    }

    constructor ()
      ensures Valid() && records == map[]
    {
      records := map[];
      nextId := 0;
    }

    /** The record under id, if the caller may see it. */
    function Get(ctx: Context, id: Uuid): (r: Result<Bgpvpn, Error>)
      reads this
      ensures r.Success? <==> id in records && Visible(ctx, records[id])
      ensures r.Success? ==> r.value == records[id]
      ensures r.Failure? ==> r.error == NotFound(id)
    {
      if id in records && Visible(ctx, records[id]) then Success(records[id]) else Failure(NotFound(id))
    }

    /** The records the caller may see that pass the filters. */
    function GetAll(ctx: Context, filters: Filters): (r: set<Bgpvpn>)
      reads this
      ensures forall b :: b in r <==> exists k :: k in records && records[k] == b && Visible(ctx, b) && Matches(b, filters)
    {
      set k | k in records && Visible(ctx, records[k]) && Matches(records[k], filters) :: records[k]
    }

    method Create(draft: Bgpvpn) returns (b: Bgpvpn)
      requires Valid()
      modifies this
      ensures Valid()
      ensures b == draft.(id := old(nextId)) && b.id !in old(records)
      ensures records == old(records)[b.id := b]
    {
      b := draft.(id := nextId);
      records := records[nextId := b];
      nextId := nextId + 1;
    }

    /** Overwrite the named fields of a visible record; the id stays. */
    method Update(ctx: Context, id: Uuid, patch: Patch) returns (r: Result<Bgpvpn, Error>)
      requires Valid()
      modifies this
      ensures Valid()
      ensures old(Get(ctx, id)).Failure? ==> r == Failure(NotFound(id)) && unchanged(this)
      ensures old(Get(ctx, id)).Success? ==>
        var updated := Merge(old(records[id]), patch).(id := id);
        r == Success(updated) && records == old(records)[id := updated] && nextId == old(nextId)
    {
      r := Get(ctx, id);
      if r.Success? {
        var updated := Merge(r.value, patch).(id := id);
        records := records[id := updated];
        r := Success(updated);
      }
    }

    /** Remove a visible record and hand it back. */
    method Delete(ctx: Context, id: Uuid) returns (r: Result<Bgpvpn, Error>)
      requires Valid()
      modifies this
      ensures Valid()
      ensures old(Get(ctx, id)).Failure? ==> r == Failure(NotFound(id)) && unchanged(this)
      ensures old(Get(ctx, id)).Success? ==>
        r == Success(old(records[id])) && records == old(records) - {id} && nextId == old(nextId)
      ensures Get(ctx, id) == Failure(NotFound(id))
    {
      r := Get(ctx, id);
      if r.Success? {
        records := records - {id};
      }
    }

    /** List the network on a visible record, once. */
    method Associate(ctx: Context, id: Uuid, net: NetworkId) returns (r: Outcome<Error>)
      requires Valid()
      modifies this
      ensures Valid()
      ensures old(Get(ctx, id)).Failure? ==> r == Fail(NotFound(id)) && unchanged(this)
      ensures old(Get(ctx, id)).Success? ==>
        var b := old(records[id]);
        && r == Pass && nextId == old(nextId)
        && records == old(records)[id := if net in b.networks then b else b.(networks := b.networks + [net])]
    {
      var got := Get(ctx, id);
      if got.Failure? {
        return Fail(got.error);
      }
      var b := got.value;
      if net !in b.networks {
        records := records[id := b.(networks := b.networks + [net])];
      }
      r := Pass;
    }

    /** Unlist the network from a visible record. */
    method Disassociate(ctx: Context, id: Uuid, net: NetworkId) returns (r: Outcome<Error>)
      requires Valid()
      modifies this
      ensures Valid()
      ensures old(Get(ctx, id)).Failure? ==> r == Fail(NotFound(id)) && unchanged(this)
      ensures old(Get(ctx, id)).Success? ==>
        var b := old(records[id]);
        && r == Pass && nextId == old(nextId)
        && records == old(records)[id := b.(networks := RemoveFirst(b.networks, net).GetOr(b.networks))]
    {
      var got := Get(ctx, id);
      if got.Failure? {
        return Fail(got.error);
      }
      var b := got.value;
      records := records[id := b.(networks := RemoveFirst(b.networks, net).GetOr(b.networks))];
      r := Pass;
    }

    /** `find_bgpvpns_for_network`: every record listing the network, each once. */
    method FindForNetwork(net: NetworkId) returns (r: seq<Bgpvpn>)
      requires Valid()
      ensures forall b :: b in r <==> exists k :: k in records && records[k] == b && net in b.networks
      ensures NoDuplicates(r)
    {
      r := [];
      var rest := records.Keys;
      ghost var seen: set<Uuid> := {};
      while rest != {}
        invariant rest + seen == records.Keys && rest !! seen
        invariant forall b :: b in r <==> exists k :: k in seen && records[k] == b && net in b.networks
        invariant NoDuplicates(r) && forall i :: 0 <= i < |r| ==> r[i].id in seen
        decreases rest
      {
        var k :| k in rest;
        if net in records[k].networks {
          r := r + [records[k]];
        }
        rest := rest - {k};
        seen := seen + {k};
      }
    }
  }

  /** A partial update keeps every field the patch does not name. */
  lemma PartialUpdateKeepsFields(prior: Bgpvpn, patch: Patch, id: Uuid)
    ensures var updated := Merge(prior, patch).(id := id);
      forall k :: k != IdKey && PatchField(patch, k).None? ==> Field(updated, k) == Field(prior, k)
  {
    MergeOverwritesPatchedKeys(prior, patch);
  }

  /** `BGPVPNDriver`: the database-backed driver with the default postcommit
      hooks, which do nothing. `trace` records the database calls and the
      hooks in the order they happen. */
  class DbDriver {
    const store: PluginDb
    ghost var trace: seq<Event>

    ghost predicate Valid()
      reads this, store
    {
      store.Valid()
    }

    constructor (db: PluginDb)
      requires db.Valid()
      ensures Valid() && store == db && trace == []
    {
      store := db;
      trace := [];
    }

    method CreateBgpvpnPostcommit(ctx: Context, b: Bgpvpn)
      modifies this
      ensures trace == old(trace) + [Notify(CreatePostcommit(b))]
    {
      trace := trace + [Notify(CreatePostcommit(b))];
    }

    method UpdateBgpvpnPostcommit(ctx: Context, before: Bgpvpn, after: Bgpvpn)
      modifies this
      ensures trace == old(trace) + [Notify(UpdatePostcommit(before, after))]
    {
      trace := trace + [Notify(UpdatePostcommit(before, after))];
    }

    method DeleteBgpvpnPostcommit(ctx: Context, b: Bgpvpn)
      modifies this
      ensures trace == old(trace) + [Notify(DeletePostcommit(b))]
    {
      trace := trace + [Notify(DeletePostcommit(b))];
    }

    method AssociateNetworkPostcommit(ctx: Context, id: Uuid, net: NetworkId)
      modifies this
      ensures trace == old(trace) + [Notify(AssociatePostcommit(id, net))]
    {
      trace := trace + [Notify(AssociatePostcommit(id, net))];
    }

    method DisassociateNetworkPostcommit(ctx: Context, id: Uuid, net: NetworkId)
      modifies this
      ensures trace == old(trace) + [Notify(DisassociatePostcommit(id, net))]
    {
      trace := trace + [Notify(DisassociatePostcommit(id, net))];
    }

    /** Store the record, then hand the stored record to the create hook and
        return it. */
    method CreateBgpvpn(ctx: Context, draft: Bgpvpn) returns (b: Bgpvpn)
      requires Valid()
      modifies this, store
      ensures Valid()
      ensures b == draft.(id := old(store.nextId)) && b.id !in old(store.records)
      ensures store.records == old(store.records)[b.id := b]
      ensures trace == old(trace) + [Store(CreateCall(draft)), Notify(CreatePostcommit(b))]
      ensures HooksFollowStores(old(trace)) ==> HooksFollowStores(trace)
    {
      b := store.Create(draft);
      trace := trace + [Store(CreateCall(draft))];
      CreateBgpvpnPostcommit(ctx, b);
      AppendStoreAndHook(old(trace), CreateCall(draft), CreatePostcommit(b));
    }

    /** Pure delegation to the database; no hook. */
    method GetBgpvpns(ctx: Context, filters: Filters) returns (r: set<Bgpvpn>)
      modifies this
      ensures r == store.GetAll(ctx, filters)
      ensures trace == old(trace) + [Store(GetAllCall(filters))]
      ensures HooksFollowStores(old(trace)) ==> HooksFollowStores(trace)
    {
      r := store.GetAll(ctx, filters);
      trace := trace + [Store(GetAllCall(filters))];
      AppendStore(old(trace), GetAllCall(filters));
    }

    /** Pure delegation to the database; no hook. */
    method GetBgpvpn(ctx: Context, id: Uuid) returns (r: Result<Bgpvpn, Error>)
      modifies this
      ensures r == store.Get(ctx, id)
      ensures trace == old(trace) + [Store(GetCall(id))]
      ensures HooksFollowStores(old(trace)) ==> HooksFollowStores(trace)
    {
      r := store.Get(ctx, id);
      trace := trace + [Store(GetCall(id))];
      AppendStore(old(trace), GetCall(id));
    }

    /** Read the old record, update the database, then hand both the old and
        the stored record to the update hook, even when nothing changed. */
    method UpdateBgpvpn(ctx: Context, id: Uuid, patch: Patch) returns (r: Result<Bgpvpn, Error>)
      requires Valid()
      modifies this, store
      ensures Valid()
      ensures old(store.Get(ctx, id)).Failure? ==>
        r == Failure(NotFound(id)) && unchanged(store) && trace == old(trace) + [Store(GetCall(id))]
      ensures old(store.Get(ctx, id)).Success? ==>
        var before := old(store.records[id]);
        var after := Merge(before, patch).(id := id);
        && r == Success(after)
        && store.records == old(store.records)[id := after]
        && trace == old(trace) + [Store(GetCall(id)), Store(UpdateCall(id, patch)), Notify(UpdatePostcommit(before, after))]
      ensures HooksFollowStores(old(trace)) ==> HooksFollowStores(trace)
    {
      var before := GetBgpvpn(ctx, id);
      if before.Failure? {
        return before;
      }
      ghost var mid := trace;
      r := store.Update(ctx, id, patch);
      trace := trace + [Store(UpdateCall(id, patch))];
      UpdateBgpvpnPostcommit(ctx, before.value, r.value);
      AppendStoreAndHook(mid, UpdateCall(id, patch), UpdatePostcommit(before.value, r.value));
      assert trace == old(trace) + [Store(GetCall(id)), Store(UpdateCall(id, patch)), Notify(UpdatePostcommit(before.value, r.value))];
    }

    /** Delete from the database, then hand the removed record to the delete
        hook. */
    method DeleteBgpvpn(ctx: Context, id: Uuid) returns (r: Outcome<Error>)
      requires Valid()
      modifies this, store
      ensures Valid()
      ensures old(store.Get(ctx, id)).Failure? ==>
        r == Fail(NotFound(id)) && unchanged(store) && trace == old(trace) + [Store(DeleteCall(id))]
      ensures old(store.Get(ctx, id)).Success? ==>
        && r == Pass
        && store.records == old(store.records) - {id}
        && trace == old(trace) + [Store(DeleteCall(id)), Notify(DeletePostcommit(old(store.records[id])))]
      ensures HooksFollowStores(old(trace)) ==> HooksFollowStores(trace)
    {
      var removed := store.Delete(ctx, id);
      trace := trace + [Store(DeleteCall(id))];
      if removed.Failure? {
        AppendStore(old(trace), DeleteCall(id));
        return Fail(removed.error);
      }
      DeleteBgpvpnPostcommit(ctx, removed.value);
      AppendStoreAndHook(old(trace), DeleteCall(id), DeletePostcommit(removed.value));
      r := Pass;
    }

    /** Associate in the database, then call the associate hook with the same
        id and network. */
    method AssociateNetwork(ctx: Context, id: Uuid, net: NetworkId) returns (r: Outcome<Error>)
      requires Valid()
      modifies this, store
      ensures Valid()
      ensures old(store.Get(ctx, id)).Failure? ==>
        r == Fail(NotFound(id)) && unchanged(store) && trace == old(trace) + [Store(AssociateCall(id, net))]
      ensures old(store.Get(ctx, id)).Success? ==>
        var b := old(store.records[id]);
        && r == Pass
        && store.records == old(store.records)[id := if net in b.networks then b else b.(networks := b.networks + [net])]
        && trace == old(trace) + [Store(AssociateCall(id, net)), Notify(AssociatePostcommit(id, net))]
      ensures HooksFollowStores(old(trace)) ==> HooksFollowStores(trace)
    {
      r := store.Associate(ctx, id, net);
      trace := trace + [Store(AssociateCall(id, net))];
      if r.Fail? {
        AppendStore(old(trace), AssociateCall(id, net));
        return;
      }
      AssociateNetworkPostcommit(ctx, id, net);
      AppendStoreAndHook(old(trace), AssociateCall(id, net), AssociatePostcommit(id, net));
    }

    /** Disassociate in the database, then call the disassociate hook with
        the same id and network. */
    method DisassociateNetwork(ctx: Context, id: Uuid, net: NetworkId) returns (r: Outcome<Error>)
      requires Valid()
      modifies this, store
      ensures Valid()
      ensures old(store.Get(ctx, id)).Failure? ==>
        r == Fail(NotFound(id)) && unchanged(store) && trace == old(trace) + [Store(DisassociateCall(id, net))]
      ensures old(store.Get(ctx, id)).Success? ==>
        var b := old(store.records[id]);
        && r == Pass
        && store.records == old(store.records)[id := b.(networks := RemoveFirst(b.networks, net).GetOr(b.networks))]
        && trace == old(trace) + [Store(DisassociateCall(id, net)), Notify(DisassociatePostcommit(id, net))]
      ensures HooksFollowStores(old(trace)) ==> HooksFollowStores(trace)
    {
      r := store.Disassociate(ctx, id, net);
      trace := trace + [Store(DisassociateCall(id, net))];
      if r.Fail? {
        AppendStore(old(trace), DisassociateCall(id, net));
        return;
      }
      DisassociateNetworkPostcommit(ctx, id, net);
      AppendStoreAndHook(old(trace), DisassociateCall(id, net), DisassociatePostcommit(id, net));
    }
  }
}
