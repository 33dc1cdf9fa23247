# BGP VPN service drivers: OpenContrail reconciliation and the persist-then-notify template

This project models two parts of networking-bgpvpn's service-driver layer in Dafny.

**The OpenContrail driver.** `OpenContrailBGPVPNDriver` keeps each BGP VPN as a JSON blob in the control plane's key-value store. It turns every change to a VPN into route-target reference updates on the routing instance of each associated network.

- Records are a `Bgpvpn` datatype (`records.dfy`). Partial updates are a `Patch` with one optional value per key.
- The update diff is the set of keys whose values differ (`ChangedKeys`).
- The route-target table and the virtual networks are modelled in `control_plane.dfy`:
  - the driver emits a sequence of reference updates (`RefCall`);
  - the route-target objects, with their routing-instance back-references, are a function of those calls (`ApplyCalls`).
- Each reconciliation is a pure function from a record and a list of networks to the calls it emits and the error that stops it, if any:
  - `Fanout` covers one `_set_bgpvpn_association`;
  - `FanoutEach` covers the per-network loops of `update_bgpvpn`;
  - `UpdatePlan` covers the branch choice of `update_bgpvpn`.
- The driver is a class, `OpenContrail.OpenContrailDriver`, with these fields:
  - the key-value store;
  - the route-target objects;
  - a fresh-uuid counter;
  - the virtual networks;
  - a ghost log of every reference update.
- Each method is proved to append exactly the calls of its plan to the log, and to leave the route-target table equal to those calls applied to the old table.
- Reference updates are idempotent in the way a retried reconciliation needs. An ADD reconciliation run again, after a first run that completed or stopped after any number of its calls, leaves the table one complete run leaves (`AddFanoutRetryIsIdempotent`). A DELETE reconciliation run twice leaves the same route-target objects, though the repeat may use up uuids (`RepeatedDeleteFanoutKeepsObjects`).

**The database-backed template.** `BGPVPNDriverDBMixin`/`BGPVPNDriver` is modelled in `driver_api.dfy`.

- A database class stands in for the plugin database.
- A driver class records in a ghost trace, in order, every database call and every postcommit hook it makes.
- Each lifecycle method is proved to:
  - make its database call;
  - then call exactly one hook, with the right arguments, and only if the database call succeeded.
- Every lifecycle method (create, update, delete, associate, disassociate) keeps each hook immediately after the database call it belongs to (`HooksFollowStores`). A `*Postcommit` hook called on its own only appends its notification, so it keeps no such promise.

Two places where the model follows the code:

- **An update that changes both `networks` and route targets takes only the networks branch.** Networks listed before and after the update keep their references to the old route targets (`MixedUpdateSkipsKeptNetwork`, `CommonNetworksUntouched`). This is modelled as written.
- **After a route-target-only update, the ADD pass re-adds every route target of the merged record**, including export targets the update did not touch. One might expect only the changed targets to be re-added. The merged record keeps its unchanged targets, and `_set_bgpvpn_association` walks all of them (`RouteTargetUpdateScenario`).

## Model

Source paths are relative to the repository root.

| member | source | states |
|---|---|---|
| Records.MergeOverwritesPatchedKeys | networking_bgpvpn/neutron/services/service_drivers/opencontrail/opencontrail.py:228-229 | In the merged record (old record copied, then `update` with the new keys), every key the patch names has the patch's value, and every other key keeps the old value |
| Records.MergeWholeRecord | networking_bgpvpn/neutron/services/service_drivers/opencontrail/opencontrail.py:284 | Updating with a whole record, as `associate_network` and `disassociate_network` do, yields exactly that record |
| Records.ChangedKeys | networking_bgpvpn/neutron/services/service_drivers/opencontrail/opencontrail.py:231-233 | The diff holds exactly the keys whose values differ, and it is empty iff the two records are equal |
| Records.RemoveFirst | networking_bgpvpn/neutron/services/service_drivers/opencontrail/opencontrail.py:294-300 | `list.remove` fails (ValueError) iff the element is absent |
| Records.RemoveFirstCutsFirstOccurrence | networking_bgpvpn/neutron/services/service_drivers/opencontrail/opencontrail.py:295 | `list.remove` deletes exactly the first occurrence, keeping the order of everything else |
| Records.RemoveFirstTakesOneOccurrence | networking_bgpvpn/neutron/services/service_drivers/opencontrail/opencontrail.py:295 | The result has one occurrence fewer of the element and the same multiplicity of every other element |
| Records.RemoveFirstMembers | networking_bgpvpn/neutron/services/service_drivers/opencontrail/opencontrail.py:295 | Other elements keep their membership; the element stays iff it occurred more than once |
| Records.AppendThenRemoveFirst | networking_bgpvpn/neutron/services/service_drivers/opencontrail/opencontrail.py:283-295 | Appending an absent network and then removing it gives back the original list |
| RouteTargetNames.Split | networking_bgpvpn/neutron/services/service_drivers/opencontrail/opencontrail.py:126 | `rt.split(':')` has at least one piece and no piece contains ':' |
| RouteTargetNames.JoinSplit | networking_bgpvpn/neutron/services/service_drivers/opencontrail/opencontrail.py:73 | `':'.join(s.split(':')) == s` for every string |
| RouteTargetNames.SplitJoin | networking_bgpvpn/neutron/services/service_drivers/opencontrail/opencontrail.py:73 | Splitting the join of pieces that contain no ':' gives back the pieces |
| RouteTargetNames.TargetObjectName | networking_bgpvpn/neutron/services/service_drivers/opencontrail/opencontrail.py:71-76 | The object created for route target rt is named `"target:" + rt` |
| RouteTargetNames.DistinctTargetsDistinctObjects | networking_bgpvpn/neutron/services/service_drivers/opencontrail/opencontrail.py:67-78 | Distinct route targets never share a route-target object |
| ControlPlane.Locate | networking_bgpvpn/neutron/services/service_drivers/opencontrail/opencontrail.py:67-78 | Lookup-or-create: an existing object's uuid is returned and nothing changes; otherwise exactly one object is created, with a uuid no other object has and no back-references, and all other objects stay |
| ControlPlane.LocateIdempotent | networking_bgpvpn/neutron/services/service_drivers/opencontrail/opencontrail.py:67-78 | A second lookup of the same name finds the object the first one returned and creates nothing |
| ControlPlane.ApplyRef | networking_bgpvpn/neutron/services/service_drivers/opencontrail/opencontrail.py:80-104 | On ADD the object exists afterwards and its uuid is returned. An existing object keeps its uuid and its back-references become exactly the old ones plus the routing instance, if one is given; a new one holds just that routing instance. On DELETE the object is removed iff no back-references remain, and None is returned exactly then. An object that survives was there before, keeps its uuid with exactly the remaining back-references, and that uuid is returned |
| ControlPlane.ApplyRefFrame | networking_bgpvpn/neutron/services/service_drivers/opencontrail/opencontrail.py:80-104 | One reference update touches only its own route target: every other object exists afterwards iff it existed before, unchanged |
| ControlPlane.ApplyCallsKeepsValid | networking_bgpvpn/neutron/services/service_drivers/opencontrail/opencontrail.py:80-104 | Applying calls in order keeps every object's uuid below the next fresh uuid, and the counter never decreases |
| ControlPlane.ApplyCallsAppend | networking_bgpvpn/neutron/services/service_drivers/opencontrail/opencontrail.py:122-140 | Applying two runs of calls one after the other equals applying their concatenation |
| ControlPlane.AddsInstallRefs | networking_bgpvpn/neutron/services/service_drivers/opencontrail/opencontrail.py:97-98 | After any run of ADD calls, each from its own routing instance or none, every route target named in the run exists and lists the routing instance of every call that named it |
| ControlPlane.RepeatedAddIsIdempotent | networking_bgpvpn/neutron/services/service_drivers/opencontrail/opencontrail.py:67-98 | Repeating an ADD reference update returns the same uuid and leaves the table exactly as the first call left it |
| ControlPlane.RepeatedDeleteKeepsObjects | networking_bgpvpn/neutron/services/service_drivers/opencontrail/opencontrail.py:67-104 | Repeating a DELETE leaves the same route-target objects. The uuid counter stays only if the object survived the first call; otherwise the repeat re-creates the object, removes it again and uses up one uuid |
| ControlPlane.DeletesSettle | networking_bgpvpn/neutron/services/service_drivers/opencontrail/opencontrail.py:96-104 | After any run of DELETE calls, each from its own routing instance or none, every route target named in the run is absent, or present with a non-empty set of back-references that excludes the routing instance of every call that named it |
| ControlPlane.SettledDeletesKeepObjects | networking_bgpvpn/neutron/services/service_drivers/opencontrail/opencontrail.py:96-104 | DELETE calls over route targets settled in that sense for each call keep the route-target objects unchanged |
| ControlPlane.InstalledAddsKeepTable | networking_bgpvpn/neutron/services/service_drivers/opencontrail/opencontrail.py:67-98 | ADD calls over route targets that exist and already list each call's routing instance leave the table unchanged |
| ControlPlane.RepeatedAddRunIsIdempotent | networking_bgpvpn/neutron/services/service_drivers/opencontrail/opencontrail.py:116-140 | Running any run of ADD calls twice leaves the table as running it once |
| ControlPlane.RetriedAddRunIsIdempotent | networking_bgpvpn/neutron/services/service_drivers/opencontrail/opencontrail.py:116-140 | A run of ADD calls cut short after any k calls and then run again from the start leaves the table one uninterrupted run leaves |
| ControlPlane.RepeatedDeleteRunKeepsObjects | networking_bgpvpn/neutron/services/service_drivers/opencontrail/opencontrail.py:116-140 | Running any run of DELETE calls twice leaves the same route-target objects as running it once; the uuid counter may move on |
| ControlPlane.FirstRef | networking_bgpvpn/neutron/services/service_drivers/opencontrail/opencontrail.py:110-112 | The index found is the first ref whose `to` matches; None means no ref matches |
| ControlPlane.RiOfNetwork | networking_bgpvpn/neutron/services/service_drivers/opencontrail/opencontrail.py:106-114 | NetworkNotFound iff the network is missing or its fq_name is empty. Otherwise the result is the uuid of the first ref to fq_name + [last component], or None, without failing, when none matches |
| ControlPlane.NetworkCallsShape | networking_bgpvpn/neutron/services/service_drivers/opencontrail/opencontrail.py:124-140 | For an L3 record, per network: exactly \|route_targets\| untagged calls, then \|import_targets\| import calls, then \|export_targets\| export calls, each naming its target's fq-name in list order. For any other type: no calls |
| ControlPlane.NetworkCallsCarry | networking_bgpvpn/neutron/services/service_drivers/opencontrail/opencontrail.py:124-140 | Every call for a network carries the operation and that network's routing instance |
| ControlPlane.FanoutStopsAtError | networking_bgpvpn/neutron/services/service_drivers/opencontrail/opencontrail.py:122-123 | Once a network cannot be resolved, the exception ends the reconciliation: later networks emit nothing |
| ControlPlane.FanoutEachStopsAtError | networking_bgpvpn/neutron/services/service_drivers/opencontrail/opencontrail.py:250-255 | The same holds for the per-network loops of `update_bgpvpn` |
| ControlPlane.FanoutCallCount | networking_bgpvpn/neutron/services/service_drivers/opencontrail/opencontrail.py:116-140 | A completed reconciliation emits \|networks\| × (\|route_targets\| + \|import_targets\| + \|export_targets\|) calls for an L3 record, and none otherwise |
| ControlPlane.FanoutCarriesOp | networking_bgpvpn/neutron/services/service_drivers/opencontrail/opencontrail.py:127-140 | All calls of a reconciliation have the same operation |
| ControlPlane.AddFanoutInstalls | networking_bgpvpn/neutron/services/service_drivers/opencontrail/opencontrail.py:116-140 | After an ADD reconciliation over any networks, every route target it named exists and lists the routing instance of every call that named it |
| ControlPlane.AddFanoutRetryIsIdempotent | networking_bgpvpn/neutron/services/service_drivers/opencontrail/opencontrail.py:116-140 | An ADD reconciliation that stopped after any number of its calls (or completed) and is run again from the start leaves the table one complete run leaves |
| ControlPlane.DeleteFanoutSettles | networking_bgpvpn/neutron/services/service_drivers/opencontrail/opencontrail.py:116-140 | After a DELETE reconciliation, every route target it named is absent, or present with a non-empty set of back-references that excludes the routing instance of every call that named it |
| ControlPlane.RepeatedDeleteFanoutKeepsObjects | networking_bgpvpn/neutron/services/service_drivers/opencontrail/opencontrail.py:116-140 | A DELETE reconciliation run twice leaves the route-target objects one run leaves |
| ControlPlane.FanoutDeleteMirrorsAdd | networking_bgpvpn/neutron/services/service_drivers/opencontrail/opencontrail.py:116-142 | DELETE-reconciling a record emits exactly the ADD calls with the operation flipped, and fails at the same network |
| OpenContrail.Stored | networking_bgpvpn/neutron/services/service_drivers/opencontrail/opencontrail.py:172 | What STORE writes decodes back to the record |
| OpenContrail.TenantForCreate | networking_bgpvpn/neutron/services/service_drivers/opencontrail/opencontrail.py:56-65 | AdminRequired iff a non-admin names another tenant. Otherwise the result is the requested tenant if there is one, else the caller's, so a non-admin always gets their own tenant |
| OpenContrail.NewRecord | networking_bgpvpn/neutron/services/service_drivers/opencontrail/opencontrail.py:144-170 | The checks run in order: MissingRouteTarget, then TypeNotSupported (an empty type defaults to l3), then RDNotSupported, then AdminRequired. On success the record has the fresh id, the chosen tenant, type l3, no networks, and every requested attribute |
| OpenContrail.UnchangedUpdateIsSilent | networking_bgpvpn/neutron/services/service_drivers/opencontrail/opencontrail.py:231-234 | An update that changes nothing emits no call |
| OpenContrail.CommonNetworksUntouched | networking_bgpvpn/neutron/services/service_drivers/opencontrail/opencontrail.py:240-255 | A network listed both before and after an update is neither DELETE- nor ADD-reconciled |
| OpenContrail.ListOf | networking_bgpvpn/neutron/services/service_drivers/opencontrail/opencontrail.py:241-248 | `list(set)` lists each member exactly once |
| OpenContrail.ListedStep | networking_bgpvpn/neutron/services/service_drivers/opencontrail/opencontrail.py:183-196 | One iteration of the listing loop appends the key's record exactly when it is listed, and keeps the listing free of duplicate keys |
| OpenContrail.ListingMembers | networking_bgpvpn/neutron/services/service_drivers/opencontrail/opencontrail.py:176-197 | A listing holds exactly the listed records of the keys seen |
| OpenContrail.AppendPlan | networking_bgpvpn/neutron/services/service_drivers/opencontrail/opencontrail.py:281-284 | Appending an absent network changes the record, and the update then ADD-reconciles exactly that network with the extended record |
| OpenContrail.RemovePlan | networking_bgpvpn/neutron/services/service_drivers/opencontrail/opencontrail.py:293-301 | Removing a listed network changes the record. The update DELETE-reconciles that network with the old record, or nothing if the network is still listed |
| OpenContrail.RemovedNetworks | networking_bgpvpn/neutron/services/service_drivers/opencontrail/opencontrail.py:295 | After `remove`, the list is different, gains no network, and loses the network unless it occurred twice |
| OpenContrail.AssociateThenDisassociate | networking_bgpvpn/neutron/services/service_drivers/opencontrail/opencontrail.py:274-301 | Associating an absent network and then disassociating it restores the original record. The disassociation emits the association's calls with DELETE instead of ADD |
| OpenContrail.RoundTripClearsRefs | networking_bgpvpn/neutron/services/service_drivers/opencontrail/opencontrail.py:80-104 | After associate-then-disassociate, no route target named by the association still lists the network's routing instance |
| OpenContrail.UndoClearsRefs | networking_bgpvpn/neutron/services/service_drivers/opencontrail/opencontrail.py:80-104 | Any run of calls from routing instance x, followed by the same run as DELETEs, leaves no named route target listing x |
| OpenContrail.MixedUpdateSkipsKeptNetwork | networking_bgpvpn/neutron/services/service_drivers/opencontrail/opencontrail.py:240-260 | An update that adds network m to a record listing only n reconciles only m, with ADD, even when it also changes route targets, so n keeps the old route targets |
| OpenContrail.SingleNetworkTargetChange | networking_bgpvpn/neutron/services/service_drivers/opencontrail/opencontrail.py:256-260 | For a one-network record whose networks stay, a route-target change DELETE-reconciles the network with the old record and then ADD-reconciles it with the merged record |
| OpenContrail.RouteTargetUpdateScenario | networking_bgpvpn/neutron/services/service_drivers/opencontrail/opencontrail.py:236-260 | For any L3 record on one network with one route target, two import targets and two export targets, changing route_targets to [] and import_targets to [i] DELETEs the 5 old references, then ADDs i (import) and both unchanged export targets (export) |
| OpenContrail.OpenContrailDriver.constructor | networking_bgpvpn/neutron/services/service_drivers/opencontrail/opencontrail.py:46-49 | The driver starts with an empty store, no route targets and an empty log |
| OpenContrail.OpenContrailDriver.LocateRt | networking_bgpvpn/neutron/services/service_drivers/opencontrail/opencontrail.py:67-78 | The new route-target table and the returned uuid are those of Locate, and the log is unchanged |
| OpenContrail.OpenContrailDriver.UpdateRtRiAssociation | networking_bgpvpn/neutron/services/service_drivers/opencontrail/opencontrail.py:80-104 | Logs exactly one reference update with the given tag. The new table and the result are those of ApplyRef; the store is unchanged |
| OpenContrail.OpenContrailDriver.UpdateRole | networking_bgpvpn/neutron/services/service_drivers/opencontrail/opencontrail.py:125-140 | One role loop logs one call per route target of the list, in order, and the table follows those calls |
| OpenContrail.OpenContrailDriver.UpdateNetwork | networking_bgpvpn/neutron/services/service_drivers/opencontrail/opencontrail.py:124-140 | Logs the untagged, then import, then export calls for an L3 record (none otherwise), and the table follows them |
| OpenContrail.OpenContrailDriver.SetBgpvpnAssociation | networking_bgpvpn/neutron/services/service_drivers/opencontrail/opencontrail.py:116-142 | Works on the given network if truthy, else on all networks of the record. Logs exactly the calls of Fanout, fails with Fanout's error, otherwise returns the record unchanged; the store is unchanged |
| OpenContrail.OpenContrailDriver.ReconcileEach | networking_bgpvpn/neutron/services/service_drivers/opencontrail/opencontrail.py:250-255 | One `_set_bgpvpn_association` per listed network, in order: logs exactly the calls of FanoutEach and stops at its error |
| OpenContrail.OpenContrailDriver.GetBgpvpn | networking_bgpvpn/neutron/services/service_drivers/opencontrail/opencontrail.py:199-218 | Succeeds iff the key holds a parseable record the caller may see (admin, or same tenant), and returns that record; every other case is NotFound |
| OpenContrail.OpenContrailDriver.GetBgpvpnAsWritten | networking_bgpvpn/neutron/services/service_drivers/opencontrail/opencontrail.py:205-216 | As written: a missing key or an unparseable or record-less value is an error other than NotFound. On a stored record it agrees with GetBgpvpn |
| OpenContrail.OpenContrailDriver.GetBgpvpns | networking_bgpvpn/neutron/services/service_drivers/opencontrail/opencontrail.py:176-197 | Lists each stored record that parses, passes the filters and is visible to the caller exactly once, one entry per such key (the ghost `keys`, with no duplicates), and nothing else: unparseable and record-less values are skipped |
| OpenContrail.OpenContrailDriver.CreateBgpvpn | networking_bgpvpn/neutron/services/service_drivers/opencontrail/opencontrail.py:144-174 | The result is NewRecord with the fresh id. A failed check changes nothing. On success there is exactly one STORE under an unused key, no reference update, and a later get returns the record |
| OpenContrail.OpenContrailDriver.Reconcile | networking_bgpvpn/neutron/services/service_drivers/opencontrail/opencontrail.py:236-260 | Logs exactly the calls of UpdatePlan and fails with its error. When networks changed, it reconciles each network of old − new and of new − old exactly once |
| OpenContrail.OpenContrailDriver.UpdateBgpvpn | networking_bgpvpn/neutron/services/service_drivers/opencontrail/opencontrail.py:220-263 | NotFound changes nothing. Otherwise it logs exactly UpdatePlan's calls for old and merged records. On success it STOREs the merged record last, and skips the STORE if nothing changed; a failed reconciliation stores nothing |
| OpenContrail.OpenContrailDriver.DeleteBgpvpn | networking_bgpvpn/neutron/services/service_drivers/opencontrail/opencontrail.py:265-272 | Logs the DELETE reconciliation over all networks of the record, then removes the key; afterwards a lookup is NotFound. A failed reconciliation keeps the key |
| OpenContrail.OpenContrailDriver.AssociateNetwork | networking_bgpvpn/neutron/services/service_drivers/opencontrail/opencontrail.py:274-284 | Nothing happens for a falsy network or one already listed. Otherwise it logs the ADD calls for that one network with the extended record and stores the extended record |
| OpenContrail.OpenContrailDriver.DisassociateNetwork | networking_bgpvpn/neutron/services/service_drivers/opencontrail/opencontrail.py:286-301 | Nothing happens for a falsy or unlisted network. Otherwise it stores the record without the first occurrence, after logging the DELETE calls for that network with the old record (none if it is still listed) |
| OpenContrail.MissingRecordMisreported | networking_bgpvpn/neutron/services/service_drivers/opencontrail/opencontrail.py:205-208 | For a missing key, the code as written fails with an error other than NotFound; the corrected lookup fails with NotFound |
| OpenContrail.UnparseableRecordMisreported | networking_bgpvpn/neutron/services/service_drivers/opencontrail/opencontrail.py:205-208 | The same holds for a value that does not parse |
| DriverApi.AppendStore | networking_bgpvpn/neutron/services/service_drivers/driver_api.py:84-88 | A database call with no hook keeps every hook immediately after its database call |
| DriverApi.AppendStoreAndHook | networking_bgpvpn/neutron/services/service_drivers/driver_api.py:78-109 | A database call followed by its own hook keeps every hook immediately after its database call |
| DriverApi.PluginDb.Get | networking_bgpvpn/tests/unit/db/test_db.py:101-105 | A lookup succeeds iff the record exists and is visible, and is NotFound otherwise |
| DriverApi.PluginDb.GetAll | networking_bgpvpn/neutron/services/service_drivers/driver_api.py:84-85 | Exactly the visible records that pass the filters |
| DriverApi.PluginDb.Create | networking_bgpvpn/tests/unit/db/test_db.py:32-44 | Stores the draft under a fresh id, leaving every other record |
| DriverApi.PluginDb.Update | networking_bgpvpn/tests/unit/db/test_db.py:65-90 | Overwrites the named fields of a visible record, keeping its id; NotFound changes nothing |
| DriverApi.PluginDb.Delete | networking_bgpvpn/tests/unit/db/test_db.py:100-105 | Removes a visible record and returns it; afterwards a lookup is NotFound |
| DriverApi.PluginDb.Associate | networking_bgpvpn/tests/unit/db/test_db.py:107-114 | Lists the network on a visible record once |
| DriverApi.PluginDb.Disassociate | networking_bgpvpn/tests/unit/db/test_db.py:107-116 | Removes the network from a visible record |
| DriverApi.PluginDb.FindForNetwork | networking_bgpvpn/tests/unit/db/test_db.py:92-98 | Lists exactly the records that list the network, each once |
| DriverApi.PartialUpdateKeepsFields | networking_bgpvpn/tests/unit/db/test_db.py:87-88 | A partial update keeps every field it does not name |
| DriverApi.DbDriver.constructor | networking_bgpvpn/neutron/services/service_drivers/driver_api.py:74-76 | The driver holds the given database and an empty trace |
| DriverApi.DbDriver.CreateBgpvpnPostcommit | networking_bgpvpn/neutron/services/service_drivers/driver_api.py:142-143 | The default hook does nothing to the database; the trace records the call |
| DriverApi.DbDriver.UpdateBgpvpnPostcommit | networking_bgpvpn/neutron/services/service_drivers/driver_api.py:145-146 | The default hook does nothing to the database; the trace records the call |
| DriverApi.DbDriver.DeleteBgpvpnPostcommit | networking_bgpvpn/neutron/services/service_drivers/driver_api.py:148-149 | The default hook does nothing to the database; the trace records the call |
| DriverApi.DbDriver.AssociateNetworkPostcommit | networking_bgpvpn/neutron/services/service_drivers/driver_api.py:151-152 | The default hook does nothing to the database; the trace records the call |
| DriverApi.DbDriver.DisassociateNetworkPostcommit | networking_bgpvpn/neutron/services/service_drivers/driver_api.py:154-155 | The default hook does nothing to the database; the trace records the call |
| DriverApi.DbDriver.CreateBgpvpn | networking_bgpvpn/neutron/services/service_drivers/driver_api.py:78-82 | Database create first, then the create hook with the stored record, which is also returned. The effect on the database is the create's |
| DriverApi.DbDriver.GetBgpvpns | networking_bgpvpn/neutron/services/service_drivers/driver_api.py:84-85 | Pure delegation: the database's answer, and no hook |
| DriverApi.DbDriver.GetBgpvpn | networking_bgpvpn/neutron/services/service_drivers/driver_api.py:87-88 | Pure delegation: the database's answer, and no hook |
| DriverApi.DbDriver.UpdateBgpvpn | networking_bgpvpn/neutron/services/service_drivers/driver_api.py:90-97 | Reads the old record first, then updates the database, then calls the update hook with the old and stored records, even when nothing changed. A failed read stops before the update, with no hook |
| DriverApi.DbDriver.DeleteBgpvpn | networking_bgpvpn/neutron/services/service_drivers/driver_api.py:99-101 | Database delete, then the delete hook with the removed record; no hook if the delete fails |
| DriverApi.DbDriver.AssociateNetwork | networking_bgpvpn/neutron/services/service_drivers/driver_api.py:103-105 | Database associate, then the associate hook with the same id and network; no hook if the associate fails |
| DriverApi.DbDriver.DisassociateNetwork | networking_bgpvpn/neutron/services/service_drivers/driver_api.py:107-109 | Database disassociate, then the disassociate hook with the same id and network; no hook if the disassociate fails |

## Left out

- The OpenContrail REST client (opencontrail_client) is represented only by the state it reads and writes: the store map, the route-target objects, the virtual networks, and a ghost log of reference updates. HTTP, authentication and the client's own error mapping are not modelled.
- Every client call other than network resolution is assumed to succeed: `create`, `ref_update`, `show`, `remove`, the `kv_store` operations, and `fqname_to_id` outside its not-found path. A failure partway through a role loop (opencontrail.py:127-140), after some reference updates were already issued, is therefore not modelled; the only failure inside a reconciliation is NetworkNotFound from `_get_ri_id_of_network`.
- Route-target lookup by fq-name is modelled as lookup by the ':'-joined name. This assumes `fqname_to_id(['target', asn, n])` finds the object created with fq_name `['target:asn:n']`. The control plane's name resolution is not part of this model.
- A reference update whose routing instance is None (no matching routing-instance ref) is logged, but changes no back-reference. What the control plane does with such a call is not part of this model.
- `uuidutils.generate_uuid` and the control plane's uuids are a counter (`nextUuid`) that only ever hands out unused ids.
- The order of `list(set(...))` is left open. `ListOf` may return any enumeration, and `UpdateBgpvpn` exposes the chosen orders as ghost outputs.
- `json.loads` is a partial parse to three shapes: a record dict, another dict, or a non-dict.
- `utils.get_bgpvpn_differences`, `utils.make_bgpvpn_dict` and `utils.filter_resource` are not part of this model.
  - The diff is the set of keys whose values differ. Records always have every key, so keys are never added or removed.
  - `make_bgpvpn_dict` is the identity: the `fields` projection is not modelled.
  - `filter_resource` is replaced by a chosen concrete rule (`Matches`): for every filtered key, the record's whole field value must be one of the listed values.
- Records are typed. A request missing 'route_targets' or 'type' (a KeyError in Python) and non-list attribute values cannot be expressed.
- `UpdateBgpvpn`, `DeleteBgpvpn`, `AssociateNetwork` and `DisassociateNetwork` (OpenContrail) read the record through the corrected `GetBgpvpn`, so a missing record fails them with NotFound. As written, `get_bgpvpn` raises UnboundLocalError there (opencontrail.py:208, reached from lines 227, 268, 281 and 293). That as-written error is modelled separately (see Findings).
- The read-modify-write in `update_bgpvpn` is not atomic. Concurrent updates of one record are not modelled.
- Logging, i18n and the debug messages are not modelled.
- `BGPVPNDriverBase` and the `service_type` property are not modelled; they carry no behaviour.
- The plugin database (`BGPVPNPluginDb`) is not part of this model. `PluginDb` is a stand-in whose behaviour follows the unit tests of that class: partial update, find-by-network, and get-after-delete.
  - Its `Create` stores the draft as given.
  - Its `Disassociate` removes the first occurrence of the network.
- The postcommit hooks modelled are `BGPVPNDriver`'s defaults, which do nothing. Driver subclasses that override them are not modelled.

## Findings

| source | as written | input that shows it | evidently intended | confidence | as-written member | corrected member |
|---|---|---|---|---|---|---|
| networking_bgpvpn/neutron/services/service_drivers/opencontrail/opencontrail.py:205-211 | `raise bgpvpn.BGPVPNNotFound(id=id)` names the local variable `bgpvpn`, not the `bgpvpn_ext` module. After a failed retrieve or parse the local is unbound (UnboundLocalError). After a parse to a non-record value it is that value (AttributeError). | `get_bgpvpn` with an id that has no key in the store, or whose value is not JSON | `bgpvpn_ext.BGPVPNNotFound(id=id)`, as on line 216 | high (not executed) | OpenContrail.OpenContrailDriver.GetBgpvpnAsWritten, OpenContrail.MissingRecordMisreported | OpenContrail.OpenContrailDriver.GetBgpvpn |
