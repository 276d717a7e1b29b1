# A10 Neutron LBaaS: device placement and the v2 member and load-balancer handlers

This project models, in Dafny, the core of the A10 Networks LBaaS driver for
OpenStack Neutron:

- **Device placement** (`plumbing_hooks.py`, module `Plumbing`). A tenant is
  placed on one of the configured ACOS appliances. The placement comes from a
  consistent-hash ring built over the configured device keys. With
  `use_database` set, it comes from a stored tenant binding that sticks once
  made. Class `Plumbing.PlumbingHooks` holds the configuration and the binding
  table; the table is the state `SelectDeviceDb` adds to.
- **The v2 member handler** (`v2/handler_member.py`, module `MemberHandler`).
  It covers:
  - the server name a member gets on the appliance: a tenant label, hex-encoded
    when it holds characters outside `[0-9a-zA-Z_-]`, and the address with its
    first four dots replaced;
  - the remote calls of `_create`, `update` and `_delete`, with the errors each
    one absorbs;
  - `stats`, which never fails.
- **The v2 load-balancer handler** (`v2/handler_lb.py`, module
  `LoadbalancerHandler`). It covers:
  - `_set` and `_delete` of the virtual server;
  - `stats`: the all-zero answer to an empty reply, the dispatch on
    `api_version`, the reshaping of an ACOS 2.1 reply, and the 3.0 path;
  - the counter merge of `_stats_thread`, as a class `StatsAccumulator`
    whose `Merge` loop updates `stats` in place.

Module `Acos` is the appliance client as the handlers see it.
- A `Client` records every mutating call in `trace`.
- The appliance's answer to a call is a function `respond` of the calls made
  before it and the call itself.
- `Escapes` gives the error that leaves a `try`/`except` block.

Each handler method is proved against a pure function of the same inputs.
`CreateRun`, `UpdateRun` and `DeleteRun` give the calls the method issues and
the error that escapes. The idempotency policies are lemmas about these
functions. Remote reads are inputs: the statistics replies, `virtual_service.get`
and `service_group.stats`.

The ring is not a specific algorithm. `PlacesOnKeys(hash)` says only that the
ring maps a non-empty key set to one of its keys. Every placement property is
proved for any such ring.

## Model

| member | source | states |
|---|---|---|
| Plumbing.HashPlacement | a10_neutron_lbaas/plumbing_hooks.py:26-29 | hash selection returns a configured device; there is none exactly when no device is configured |
| Plumbing.SelectDeviceDispatch | a10_neutron_lbaas/plumbing_hooks.py:47-51 | `select_device` is the binding path exactly when `use_database` is set; the hash path leaves the binding table unchanged |
| Plumbing.RingDependsOnKeysOnly | a10_neutron_lbaas/plumbing_hooks.py:22-29 | a consequence of the assumption that the ring depends on the key set and not on the order of `keys()`: two registries with the same keys place a tenant on the same key |
| Plumbing.StickyBinding | a10_neutron_lbaas/plumbing_hooks.py:34-38 | a stored binding to a configured device decides the device, whatever the ring says, and the table is not changed |
| Plumbing.Fallback | a10_neutron_lbaas/plumbing_hooks.py:40-45 | with no live binding the device is the hash placement; the tenant gets bound to that device's name; no other binding changes |
| Plumbing.PlacementKeepsBinding | a10_neutron_lbaas/plumbing_hooks.py:31-51 | selecting for any tenant keeps another tenant's live binding as it was |
| Plumbing.PlaceManyKeepsBinding | a10_neutron_lbaas/plumbing_hooks.py:31-51 | a live binding survives any sequence of later selections |
| Plumbing.SelectionIsDeterministic | a10_neutron_lbaas/tests/unit/plumbing/test_portbinding_vlan.py:50-53 | selecting for a tenant, then for any others, then for the same tenant again gives the same device: in hash mode for any registry, in database mode when every device's `name` is its key |
| Plumbing.NameOfOtherKeyBreaksDeterminism | a10_neutron_lbaas/plumbing_hooks.py:37-42 | when a device's `name` is a different key, database mode is not deterministic: the first selection returns the device under "a" and stores "b"; the next returns the device under "b" |
| Plumbing.BindingSurvivesRingChange | a10_neutron_lbaas/plumbing_hooks.py:31-45 | when every device's `name` is its registry key: once a tenant is bound, a ring rebuilt differently still gives it the same device and leaves the table as it was |
| Plumbing.NameOfOtherKeyBreaksRingChange | a10_neutron_lbaas/plumbing_hooks.py:37-42 | when a device's `name` is a different key, a bound tenant moves to another device on the next selection, whatever the rebuilt ring answers |
| Plumbing.ForeignNameNeverSticks | a10_neutron_lbaas/plumbing_hooks.py:37-42 | when the hashed device's `name` is not one of the registry keys, the stored binding is never live; every selection re-hashes and rewrites it |
| Plumbing.PlumbingHooks.constructor | a10_neutron_lbaas/plumbing_hooks.py:22-24 | the ring is built over exactly the configured device keys |
| Plumbing.PlumbingHooks.SelectDeviceHash | a10_neutron_lbaas/plumbing_hooks.py:26-29 | returns the hash placement of the tenant |
| Plumbing.PlumbingHooks.SelectDeviceDb | a10_neutron_lbaas/plumbing_hooks.py:31-45 | returns the live binding's device and leaves the table alone; otherwise hashes, and stores the new binding under the device's name |
| Plumbing.PlumbingHooks.SelectDevice | a10_neutron_lbaas/plumbing_hooks.py:47-51 | the result and the new table are the placement for `use_database`; the table is unchanged when it is off |
| Plumbing.PlumbingHooks.AfterMemberCreate | a10_neutron_lbaas/plumbing_hooks.py:59-60 | the base hook changes nothing |
| Plumbing.PlumbingHooks.AfterMemberUpdate | a10_neutron_lbaas/plumbing_hooks.py:62-63 | the base hook changes nothing |
| Plumbing.PlumbingHooks.AfterMemberDelete | a10_neutron_lbaas/plumbing_hooks.py:65-66 | the base hook changes nothing |
| Plumbing.PlumbingHooks.AfterVipCreate | a10_neutron_lbaas/plumbing_hooks.py:68-69 | the base hook changes nothing |
| Plumbing.PlumbingHooks.AfterVipUpdate | a10_neutron_lbaas/plumbing_hooks.py:71-72 | the base hook changes nothing |
| Plumbing.PlumbingHooks.AfterVipDelete | a10_neutron_lbaas/plumbing_hooks.py:74-75 | the base hook changes nothing |
| Acos.StatusFor | a10_neutron_lbaas/v2/handler_member.py:54-56 | the status is `DOWN` exactly when the resource is administratively down |
| Acos.Escapes | a10_neutron_lbaas/v2/handler_member.py:129-139 | nothing escapes exactly on success or an absorbed error; otherwise the error itself escapes |
| MemberHandler.Hexlify | a10_neutron_lbaas/v2/handler_member.py:40 | hex encoding doubles the length and yields label characters only |
| MemberHandler.UnhexlifyHexlify | a10_neutron_lbaas/v2/handler_member.py:40 | decoding the hex encoding gives back the original bytes |
| MemberHandler.TenantPrefix | a10_neutron_lbaas/v2/handler_member.py:37 | the prefix is the tenant id's first five characters, or all of them when it is shorter |
| MemberHandler.TenantLabel | a10_neutron_lbaas/v2/handler_member.py:37-40 | the label holds only `[0-9a-zA-Z_-]`; it is the prefix itself exactly when the prefix is clean; otherwise it is twice as long and decodes back to the prefix |
| MemberHandler.ReplaceDots | a10_neutron_lbaas/v2/handler_member.py:41 | replacing dots keeps the length |
| MemberHandler.ReplaceDotsAt | a10_neutron_lbaas/v2/handler_member.py:41 | a character becomes `_` exactly when it is a dot with fewer than `count` dots before it; every other character is kept |
| MemberHandler.ReplaceDotsLeaves | a10_neutron_lbaas/v2/handler_member.py:41 | at most `count` dots are replaced; the dots past the first `count` are left |
| MemberHandler.GetName | a10_neutron_lbaas/v2/handler_member.py:33-43 | with `member_name_use_uuid` the name is the member id; otherwise it is `_<label>_<address>_neutron` |
| MemberHandler.GeneratedNameHasNoDot | a10_neutron_lbaas/v2/handler_member.py:41-42 | a generated name for an address with at most four dots contains no dot, and its length is the label's plus the address's plus ten |
| MemberHandler.ServerName | a10_neutron_lbaas/v2/handler_member.py:45-46 | the `name` metadata overrides the generated name |
| MemberHandler.ServerArgs | a10_neutron_lbaas/v2/handler_member.py:60-67 | the server arguments are the `server` metadata under `server`; a configured `conn-limit`/`conn-resume` overrides the metadata's; every other metadata entry, including those two keys when not configured, passes through; no other key is added |
| MemberHandler.ServerTemplates | a10_neutron_lbaas/v2/handler_member.py:69-73 | a server template is sent exactly when templates are configured and name `server`, and it is that entry |
| MemberHandler.CreatePolicy | a10_neutron_lbaas/v2/handler_member.py:59-93 | the server create comes first; `Exists`/`AddressSpecifiedIsInUse` on it still lead to the member create; `Exists` never escapes; the run succeeds exactly when both calls answer success or an absorbed error |
| MemberHandler.UpdateSelfHeals | a10_neutron_lbaas/v2/handler_member.py:110-120 | only `NotFound` on the member update triggers `_create`; its calls and its escaping error are `_create`'s; any other error escapes after the single update |
| MemberHandler.DeletePolicy | a10_neutron_lbaas/v2/handler_member.py:129-139 | the port delete comes first; at most one more call follows, and only after the port delete succeeds; nothing escapes exactly when each call issued answers `Ok` or `NotFound`; every other error, from either call, escapes as it is |
| MemberHandler.StatusFollowsAdminState | a10_neutron_lbaas/v2/handler_member.py:54-56 | server create, member create and member update all carry `DOWN` exactly when the member is administratively down |
| MemberHandler.BuildServerArgs | a10_neutron_lbaas/v2/handler_member.py:59-73 | the arguments built up in place are the server arguments and template described above |
| MemberHandler.CreateOnDevice | a10_neutron_lbaas/v2/handler_member.py:48-93 | the calls issued and the escaping error are those of the create run |
| MemberHandler.Create | a10_neutron_lbaas/v2/handler_member.py:95-98 | `create` issues exactly `_create`'s calls and lets its error escape |
| MemberHandler.Update | a10_neutron_lbaas/v2/handler_member.py:100-122 | the calls issued and the escaping error are those of the update run |
| MemberHandler.DeleteOnDevice | a10_neutron_lbaas/v2/handler_member.py:124-141 | the port delete, then the member delete when others share the server, or else the server delete; the escaping error is that of the delete run |
| MemberHandler.Stats | a10_neutron_lbaas/v2/handler_member.py:147-169 | the appliance's reply when reading it succeeds; otherwise the four server counters, all zero |
| LoadbalancerHandler.SetCall | a10_neutron_lbaas/v2/handler_lb.py:29-42 | `_set` calls the create or update method it was handed, with the given name, the VIP address, and `DOWN` exactly when the load balancer is administratively down |
| LoadbalancerHandler.Set | a10_neutron_lbaas/v2/handler_lb.py:29-44 | exactly that one call is issued; only `Exists` is absorbed |
| LoadbalancerHandler.DeleteOnDevice | a10_neutron_lbaas/v2/handler_lb.py:121-125 | exactly the virtual-server delete is issued; only `NotFound` is absorbed |
| LoadbalancerHandler.AddCounters | a10_neutron_lbaas/v2/handler_lb.py:104-107 | the merged counters hold every name of either side, each with the sum of both values; untouched names keep their value |
| LoadbalancerHandler.AddOneCounter | a10_neutron_lbaas/v2/handler_lb.py:104-107 | merging one more counter adds its value at its name |
| LoadbalancerHandler.MergeStep | a10_neutron_lbaas/v2/handler_lb.py:104-107 | both branches, adding to a set counter or storing the value, amount to adding the value |
| LoadbalancerHandler.AddCountersCommute | a10_neutron_lbaas/v2/handler_lb.py:100-109 | two ports' counters merged in either order give the same accumulator |
| LoadbalancerHandler.MergeAllIsKeywiseSum | a10_neutron_lbaas/v2/handler_lb.py:76-78 | merging every port gives each counter name's sum over all ports |
| LoadbalancerHandler.MergeAllWithout | a10_neutron_lbaas/v2/handler_lb.py:76-78 | merging every port equals merging all but one, then that one |
| LoadbalancerHandler.MergeOrderIrrelevant | a10_neutron_lbaas/v2/handler_lb.py:76-78 | the accumulator does not depend on the order in which the port threads merge |
| LoadbalancerHandler.StatsAccumulator.constructor | a10_neutron_lbaas/v2/handler_lb.py:73 | the accumulator starts empty |
| LoadbalancerHandler.StatsAccumulator.Merge | a10_neutron_lbaas/v2/handler_lb.py:100-109 | after merging a port, the accumulator is the old one plus the port's counters, name by name |
| LoadbalancerHandler.StatsAccumulator.Collect | a10_neutron_lbaas/v2/handler_lb.py:73-78 | after a reset and a merge of every port, the accumulator is the merge of all ports |
| LoadbalancerHandler.StatsThreadAsWritten | a10_neutron_lbaas/v2/handler_lb.py:77-101 | the thread body as written always raises, a `TypeError` unless the only counter is `resp` and otherwise a `NameError` on `kwargs`, and leaves the accumulator as it was |
| LoadbalancerHandler.StatsThreadDropsCounters | a10_neutron_lbaas/v2/handler_lb.py:100-107 | one counter shows the gap: as written it is not recorded, while the intended merge records it |
| LoadbalancerHandler.EnrichPort | a10_neutron_lbaas/v2/handler_lb.py:50-55 | a port with a service group gets the group's statistics merged in, `service_group_stat` renamed `pool_stat_list`; port entries the group's reply does not override (and the port's own `service_group_stat`) are kept; a port without a group is unchanged; it fails exactly on a non-record port, a missing `name`, or a reply without `service_group_stat` |
| LoadbalancerHandler.EnrichAll | a10_neutron_lbaas/v2/handler_lb.py:50-55 | every port is enriched in place; otherwise the first failing port's error is raised |
| LoadbalancerHandler.ReshapeV21 | a10_neutron_lbaas/v2/handler_lb.py:57-70 | a non-empty port list moves to `listener_stat`, which replaces `vport_stat_list` and adds no other key; the virtual-server record moves to `loadbalancer_stat` with every other key kept; the four counters come from it; a missing counter raises |
| LoadbalancerHandler.StatsV21 | a10_neutron_lbaas/v2/handler_lb.py:49-70 | the in-place port loop followed by the reshape gives the 2.1 result |
| LoadbalancerHandler.StatsV30 | a10_neutron_lbaas/v2/handler_lb.py:72-98 | the 3.0 path always raises; it reads the empty accumulator exactly when the reply has an empty port list and a well-formed virtual-server record |
| LoadbalancerHandler.Stats | a10_neutron_lbaas/v2/handler_lb.py:132-148 | an empty reply gives zero counters and empty extended statistics; otherwise API version "3.0" takes the 3.0 path and every other version the 2.1 path |

## Left out

- The status contexts (`A10WriteStatusContext`, `A10DeleteContext`, `A10Context`) are not modelled: opening the client, selecting the device, and setting the neutron object status. v2_context.py is not part of this model. The handler methods start from an open client and a known device configuration.
- Hash ring internals (`acos_client.Hash`) are an arbitrary function that maps a non-empty key set to one of its keys. The bound on tenants that move when a device is added is not modelled, because it depends on the ring's algorithm.
- Database session, query and commit mechanics are not modelled; the `A10TenantBinding` table is a map from tenant to device name. The source adds a new row for a tenant whose stored device is no longer configured. The model overwrites that tenant's entry instead. The source's `.one()` query, which raises when no row exists, is modelled as a lookup that may miss, following the `is not None` test that comes after it. The module that provides `db_api` is not imported in the file; the model ignores that.
- Plumbing.SelectionIsDeterministic: in database mode it is proved only under the assumption that every device's `name` equals its registry key. config.py is not part of this model, so whether the configuration guarantees this is not known here. Plumbing.NameOfOtherKeyBreaksDeterminism shows that determinism fails when a name is a different key. Plumbing.ForeignNameNeverSticks covers a name that is no key at all.
- Plumbing.BindingSurvivesRingChange: proved only under the same assumption, that every device's `name` equals its registry key. Plumbing.NameOfOtherKeyBreaksRingChange shows the device changes when a name is a different key. When a name is no key at all, plumbing_hooks.py:37 never finds the binding, so the rebuilt ring decides (Plumbing.ForeignNameNeverSticks).
- Device dicts without a `name`: every modelled device (`Plumbing.Device`) has one. A device dict without one makes `d['name']` at plumbing_hooks.py:42 raise `KeyError`; that error is not modelled.
- The order of `keys()`: the ring (`Plumbing.HashLibrary`) is assumed to depend only on the set of configured keys. The source builds it from `devices.keys()`, whose order follows the dict. Whether `acos_client.Hash` ignores that order is outside this model.
- Plumbing.HashPlacement: an empty registry yields no device. The source instead fails when the ring has no server.
- `partition_create` and `partition_delete` are not modelled; they are single pass-through calls to the client with no logic of their own.
- Subclasses of the plumbing hooks (VLAN port binding and others) are not modelled; the base hooks' `after_*` methods do nothing.
- The neutron helpers are inputs (`Lookups`): `member_get_ip`, `meta`, `_pool_name` and `member_count`. The same holds for the appliance answers to `virtual_service.get` (the service group of a port) and `service_group.stats`.
- MemberHandler.TenantLabel: tenant ids are modelled as Python 2 byte strings (characters below U+0100). For a `unicode` tenant id, `binascii.hexlify` raises `UnicodeEncodeError` when the first five characters hold a non-ASCII one; that error escapes `_create`, `update` and `_delete`. The model instead hex-encodes characters U+0080 to U+00FF and cannot express characters above U+00FF anywhere in the id.
- MemberHandler.CreateOnDevice: `config_defaults` and `os_name` are not part of the recorded call. `_get_config_defaults` is outside this model.
- MemberHandler.Stats: any exception in the block gives the zero counters; which step raised is not modelled.
- LoadbalancerHandler.EnrichPort: the lookups of `virtual_service` and `service_group` in the `virtual_service.get` reply are folded into one query that answers "" for no group. The key errors those lookups can raise are not modelled.
- LoadbalancerHandler.StatsV21: the reply is updated in place in the source, so a caller holding it sees the reshaped dictionary. The model returns the new dictionary instead. A port record that appears twice in the list (aliasing) is not modelled.
- LoadbalancerHandler.StatsAccumulator: the port threads and the lock are not modelled. The merges run one after the other; `MergeOrderIrrelevant` shows the result does not depend on their order. Counter values are integers; other value types are not modelled.
- LoadbalancerHandler.StatsV30: only the as-written behaviour is modelled. The code gives no complete definition of an intended 3.0 reshape beyond the counter merge.
- The assignment `self.stats = {}` in `_stats_v30` replaces the handler's `stats` method on that instance, so a later `stats` call on it would fail. Handler object identity is not modelled.
- `refresh`, the load balancer's `create`/`update`/`delete` wrappers beyond `_set`/`_delete`, the l7 rule handler and the device database extension are outside this model.

## Findings

| source | as written | input that shows it | evidently intended | confidence | as-written member | corrected member |
|---|---|---|---|---|---|---|
| a10_neutron_lbaas/v2/handler_lb.py:77-101 | `_stats_thread(self, resp)` is started with the port's counters as keyword arguments, and its loop iterates the undefined name `kwargs`. Every thread raises (a `TypeError` or a `NameError`) before merging anything. | a port whose `stats` is `{"req_bytes": 10}`: the accumulator never receives `req_bytes` | each thread adds its port's counters into `self.stats`: a set counter is increased, an unset one is stored | not executed | LoadbalancerHandler.StatsThreadAsWritten | LoadbalancerHandler.StatsAccumulator.Merge |
