# Agent platform core, modelled in Dafny

This project models the in-memory core of a multi-tenant agent platform. The platform is a Python service that keeps registries of tenants, agents, plugins, business plugins, knowledge bases, data sources, LLM providers, data schemas, workflows and MCP tools. Each registry is a dictionary keyed by id, plus secondary index buckets such as status, tier, type, category, market, tag and capability. Every registry supports register, get, list, unregister, status update and search.

Declarative YAML loaders turn YAML-shaped dictionaries into records. Import services merge the loaded records into a registry: an unknown id is registered, and a known id is either skipped or replaced. Each item lands in exactly one of imported, updated, skipped or errors.

On top of the registries sit:

- the tenant access layer: status and expiry checks with an expire-on-read effect, strict quotas, feature flags, collection naming, query stamping, the middleware's order for resolving the tenant id, and the login's tenant rules;
- several small engines: schema validation and default filling, field-mapping transforms, relationship resolution, fixed-size text chunking, workflow graph bookkeeping, and the status machines of plugins, agents and workflows.

## Modelling conventions

- **Registries** are classes whose fields the methods change in place:
  - the primary `map`;
  - an `order` sequence, which reproduces the insertion order of a Python dict;
  - one bucket map per index.

  Each class keeps an invariant `Valid()`: the order lists every record once, and every bucket holds exactly the ids whose record carries that key. `list` and `search` are loops proved against a specification function of the registry's state. Lemmas state that the result is exact: a record is returned if and only if it is registered and passes the filter.
- **Exceptions** become the `Err` side of a `Result` carrying a message. Where the source composes the message itself (an f-string in a `ValueError`, an enum's "'x' is not a valid Y"), the model carries that text; the places where it carries a rendering instead are listed under "## Left out". Where the source raises before changing anything, the model proves that nothing changed.
- **YAML data** is the `Value` datatype. Dicts are association lists, so they keep insertion order.
- **Loaders** are the generic loader (`Declarative`) instantiated with each component's hooks. Each loader has a round-trip lemma: an exported document loads back as the records it was exported from. Where that round trip fails, the failing input is exhibited.
- **Import services** are specified by functions over the registry's map and proved by loops over the items.
- **Parameters** stand in for everything outside the process: the clock, uuid generation, imports of plugin modules, adapters, handlers, the graph library, the database and password/JWT checks.

## Model

| member | source | states |
|---|---|---|
| TenantRegistry.NewTenant | app/platform/tenants/tenant_registry.py:29-47 | A tenant built from its identity alone has the metadata class's defaults: free, trial, 10 users, 1 GB, 1000 calls a day, no features, no domain, no expiry, no owner |
| TenantRegistry.KeysUpdate | app/platform/tenants/tenant_registry.py:97-99 | Storing one tenant replaces only its own status and tier keys in the index key maps |
| TenantRegistry.KeysRemove | app/platform/tenants/tenant_registry.py:155-163 | Removing a tenant removes only its own keys from the index key maps |
| TenantRegistry.DomainRegister | app/platform/tenants/tenant_registry.py:91-94 | Filing a new tenant's non-empty, unused domain keeps the domain index exact: each indexed domain names the one tenant that has it |
| TenantRegistry.DomainSameDomain | app/platform/tenants/tenant_registry.py:175-178 | Changing a tenant without changing its domain keeps the domain index exact |
| TenantRegistry.RegisterConsistent | app/platform/tenants/tenant_registry.py:85-101 | Registering a new id with an unused domain keeps the registry invariant: the order lists each tenant once, ids match, and the status, tier and domain indexes are exact |
| TenantRegistry.StatusRegistered | app/platform/tenants/tenant_registry.py:98 | Appending a new tenant's id to its status bucket keeps the status index exact |
| TenantRegistry.TierRegistered | app/platform/tenants/tenant_registry.py:99 | Appending a new tenant's id to its tier bucket keeps the tier index exact |
| TenantRegistry.UnregisterConsistent | app/platform/tenants/tenant_registry.py:150-168 | Removing a registered tenant from the map, its buckets and (for a non-empty domain) the domain index keeps the registry invariant |
| TenantRegistry.UpdateStatusConsistent | app/platform/tenants/tenant_registry.py:170-185 | Changing the status and update time and moving the id between status buckets keeps the registry invariant |
| TenantRegistry.StatusReindexed | app/platform/tenants/tenant_registry.py:181-183 | Removing the id from its old status bucket and appending it to the new one keeps the status index exact |
| TenantRegistry.TierKeysSameTier | app/platform/tenants/tenant_registry.py:175-178 | A change that keeps the tier leaves the tier keys as they were |
| TenantRegistry.SelectSound | app/platform/tenants/tenant_registry.py:132-146 | Everything `list` returns is a registered tenant that passes the status, tier and any-feature filters |
| TenantRegistry.SelectComplete | app/platform/tenants/tenant_registry.py:132-146 | Every registered candidate that passes the filters is returned |
| TenantRegistry.ListByStatusExact | app/platform/tenants/tenant_registry.py:124-138 | On a consistent registry `list(status=s)` returns a registered tenant if and only if its status is s |
| TenantRegistry.SearchSpec | app/platform/tenants/tenant_registry.py:187-198 | Every search result matches the query: the lower-cased query occurs in the lower-cased name, display name or description |
| TenantRegistry.SearchComplete | app/platform/tenants/tenant_registry.py:187-198 | Every registered tenant that matches the query is found |
| TenantRegistry.Registry.constructor | app/platform/tenants/tenant_registry.py:75-83 | A new registry is empty, with an empty domain index |
| TenantRegistry.Registry.RegisterError | app/platform/tenants/tenant_registry.py:87-93 | Registration is refused exactly when the id is registered ("Tenant X already registered") or the non-empty domain is in use ("Domain D already registered") |
| TenantRegistry.Registry.Register | app/platform/tenants/tenant_registry.py:85-101 | A refused registration changes nothing. Otherwise the tenant is stored with update time now and returned. Its id is appended to the order and to its status and tier buckets, and a non-empty domain is indexed. The invariant holds |
| TenantRegistry.Registry.Get | app/platform/tenants/tenant_registry.py:103-105 | Returns the tenant exactly when the id is registered |
| TenantRegistry.Registry.GetByDomain | app/platform/tenants/tenant_registry.py:107-112 | A returned tenant is registered and has that domain. When none is returned, no registered tenant with a non-empty id has that (non-empty) domain |
| TenantRegistry.Registry.List | app/platform/tenants/tenant_registry.py:114-148 | Walks the status bucket, else the tier bucket, else all ids, and returns the registered tenants passing every filter (SelectSound, SelectComplete, ListByStatusExact) |
| TenantRegistry.Registry.Unregister | app/platform/tenants/tenant_registry.py:150-168 | Returns whether the id was registered. If it was, the id leaves the map, the order, both buckets and the domain index, and the invariant holds |
| TenantRegistry.Registry.UpdateStatus | app/platform/tenants/tenant_registry.py:170-185 | Returns whether the id was registered. If it was, only that tenant's status and update time change, and its id moves to the end of the new status's bucket |
| TenantRegistry.Registry.Search | app/platform/tenants/tenant_registry.py:187-198 | The matching tenants in registration order (SearchSpec, SearchComplete) |
| TenantManager.AccessDecision | app/platform/tenants/tenant_manager.py:27-42 | Access is allowed exactly for a known tenant that is active or trial and not past its expiry. Expire-and-deny applies exactly when such a tenant is past its expiry. Every other case is a plain denial |
| TenantManager.ExpiryIsFinal | app/platform/tenants/tenant_manager.py:38-40 | A tenant the check has just expired is plainly denied by every later check, at any time, with no second status change |
| TenantManager.AccessIgnoresQuotas | app/platform/tenants/tenant_manager.py:27-42 | The access decision does not depend on the user, storage or API quotas |
| TenantManager.CheckTenantAccess | app/platform/tenants/tenant_manager.py:27-42 | Returns true exactly when AccessDecision allows. On expire-and-deny only that tenant changes, to expired with update time now; otherwise the registry is unchanged |
| TenantManager.CheckUserLimit | app/platform/tenants/tenant_manager.py:44-50 | True only for a known tenant, and then exactly when the count is strictly below `max_users` |
| TenantManager.CheckStorageLimit | app/platform/tenants/tenant_manager.py:52-58 | True only for a known tenant, and then exactly when the usage is strictly below `max_storage_gb` |
| TenantManager.CheckApiQuota | app/platform/tenants/tenant_manager.py:60-66 | True only for a known tenant, and then exactly when today's calls are strictly below `max_api_calls_per_day` |
| TenantManager.AtLimitDenied | app/platform/tenants/tenant_manager.py:44-66 | A tenant exactly at a cap is refused by that cap's check |
| TenantManager.HasFeature | app/platform/tenants/tenant_manager.py:68-74 | True exactly when the tenant is known and the feature is in its list |
| TenantManager.CollectionName | app/platform/tenants/tenant_manager.py:76-79 | The name is "tenant_", then the id, then "_", then the base collection |
| TenantManager.CollectionNamesCanCollide | app/platform/tenants/tenant_manager.py:79 | Two different tenants can get the same collection name (tenant "a_b" with base "c" and tenant "a" with base "b_c"), so the tenant separation rests on the stamped `tenant_id` |
| TenantManager.StampQuery | app/platform/tenants/tenant_manager.py:93 | The stamped query's `tenant_id` is the tenant, overwriting any caller value, and every other key is unchanged |
| TenantManager.StampedQueriesSeparate | app/platform/tenants/tenant_manager.py:93-156 | The stamped queries of two different tenants never agree on `tenant_id`, whatever the callers passed |
| TenantManager.StampNewDocument | app/platform/tenants/tenant_manager.py:116-118 | A new document carries the tenant's id and both timestamps as now; every other key is as given |
| TenantManager.StampUpdate | app/platform/tenants/tenant_manager.py:135-140 | Succeeds exactly when `$set` is absent or a dict. The query is then stamped and `$set` exists, holding `updated_at` as now; every other update key is unchanged |
| TenantManager.DeleteAndReadStampAlike | app/platform/tenants/tenant_manager.py:93-156 | `delete_tenant_data` and `get_tenant_data` put the tenant's id into the query in the same way |
| TenantMiddleware.ExtractTenantId | app/platform/tenants/tenant_middleware.py:55-79 | A non-empty X-Tenant-ID header is the answer. Otherwise, a host with at least three dot-separated parts is looked up by domain. Failing that, the non-empty `tenant_id` query parameter is the answer, else there is none. Any answer comes from the header, the query, or a registered tenant whose domain is the whole host. With no header and such a host, a registered tenant (non-empty id) whose domain is the host is the answer, ahead of the query; when there is none, the query parameter or nothing |
| TenantMiddleware.HeaderWins | app/platform/tenants/tenant_middleware.py:58-60 | A non-empty header decides the tenant whatever the host and the query say |
| TenantMiddleware.ShortHostIgnored | app/platform/tenants/tenant_middleware.py:63-67 | A host with fewer than three dot-separated parts (such as "example.com") is never looked up, so only the query parameter can name the tenant |
| TenantMiddleware.DispatchRequest | app/platform/tenants/tenant_middleware.py:27-53 | Without a tenant id the request proceeds with no tenant and nothing changes. With one, it proceeds with that id and the tenant's record exactly when the access check allows, and is refused with 403 "Tenant X is not active or has expired" otherwise |
| TenantMiddleware.RequireTenant | app/platform/tenants/tenant_middleware.py:92-100 | Succeeds exactly when the request state holds a non-empty tenant id, and returns it; otherwise a 400 "Tenant ID is required" |
| TenantMiddleware.NoTenantThenRequireFails | app/platform/tenants/tenant_middleware.py:47-99 | A request the middleware let through without a tenant fails `require_tenant` |
| Auth.EffectiveTenant | app/routers/auth_db.py:155-161 | The tenant is the request's tenant_id if truthy, else the X-Tenant-ID header if truthy, else the middleware's value |
| Auth.LoginDecision | app/routers/auth_db.py:136-213 | Empty username or password gives 400; a refused tenant gives 403; a token is issued only for an authenticated user, with the requested tenant when one was given and otherwise the user's own |
| Auth.AccessRefusalPrecedesAuthentication | app/routers/auth_db.py:165-180 | A tenant refused by the access check is refused whatever authentication would return |
| Auth.TenantMismatchRefused | app/routers/auth_db.py:201-207 | A user bound to a different tenant is refused with 403 |
| Auth.UnboundUserMayChoose | app/routers/auth_db.py:208-210 | A user without a stored tenant may log in to any requested tenant that passes the access check |
| Auth.Login | app/routers/auth_db.py:125-269 | The decision is LoginDecision on the effective tenant and the access check's answer; only a checked login may change the tenant registry (the access check may expire a tenant) |
| Auth.CheckExpiry | app/services/auth_service.py:56-64 | A decoded payload is kept exactly when its exp, read as 0 when missing, is not before now |
| Auth.BearerToken | app/routers/auth_db.py:76-84 | A missing header gives 401; the token is returned exactly when the lower-cased header starts with "bearer ", and it is the header after its first seven characters |
| Auth.BearerSchemeCaseInsensitive | app/routers/auth_db.py:80-84 | Any spelling of "bearer" followed by a space yields the token |
| Auth.CurrentUser | app/routers/auth_db.py:71-122 | A user is returned only when the bearer token decodes, is unexpired, names a subject and that subject is an existing active user; every failure is a 401 |
| TenantLoader.ParseTier | app/platform/tenants/yaml_loader.py:36 | A loaded tier is the tier named by the value |
| TenantLoader.ParseStatus | app/platform/tenants/yaml_loader.py:37 | A loaded status is the status named by the value |
| TenantLoader.EnumNamesRoundTrip | app/platform/tenants/tenant_registry.py:57-58 | Every tier's and every status's exported name loads back as itself |
| TenantLoader.ParseIdentity | app/platform/tenants/yaml_loader.py:21-27 | With neither a truthy `tenant_id` nor `id` the item is refused with "Tenant 'tenant_id' is required". Otherwise the id is `tenant_id or id` and non-empty, the name is `name or tenant_id`, and the description defaults to "". Tier and status start at free and trial, with no expiry |
| TenantLoader.ParseLimits | app/platform/tenants/yaml_loader.py:36-41 | Only tier, status, quotas and features are set. Tier defaults to free and status to trial. Each quota takes its snake_case key, then its camelCase key, then 10, 1 and 1000 |
| TenantLoader.ParseTimes | app/platform/tenants/yaml_loader.py:48-51 | Only the creation and update times are set; each is the load time when its key is absent |
| TenantLoader.ParseFields | app/platform/tenants/yaml_loader.py:18-51 | A tenant loads only from a dict, with a non-empty id and, before `expires_at` is read, no expiry |
| TenantLoader.ParseTenantAsWritten | app/platform/tenants/yaml_loader.py:52-53 | The loader as written reads every other field as ParseFields does, then passes a present `expires_at`, null included, to `fromisoformat` |
| TenantLoader.ParseTenant | app/platform/tenants/yaml_loader.py:18-55 | The corrected loader differs from ParseFields only in the expiry, and a null `expires_at` means no expiry |
| TenantLoader.TenantDefaults | app/platform/tenants/yaml_loader.py:21-45 | An item giving only its id loads as the default tenant: named after its id, free, trial, 10 users, 1 GB, 1000 calls a day, no features, both times the load time |
| TenantLoader.IdentityDefaults | app/platform/tenants/yaml_loader.py:21-27 | With only an id given, the identity stage gives the name and display name as the id and an empty description |
| TenantLoader.LimitDefaults | app/platform/tenants/yaml_loader.py:36-41 | With no limit key given, the limits are free, trial, 10, 1, 1000 and no features |
| TenantLoader.SetIdField | app/platform/tenants/yaml_loader.py:61-64 | `tenant_id` is written only when absent; every other key is untouched |
| TenantLoader.ObjectFormTakesKey | app/platform/core/declarative_manager.py:67-74 | In the object form a tenant item with neither `tenant_id` nor `id` that loads has its key as its id |
| TenantLoader.ExportedTenantWithoutExpiryFailsToLoad | app/platform/tenants/tenant_registry.py:67 | A tenant with no expiry, the default, exports `expires_at` as null, and the loader as written fails on that export |
| TenantLoader.ExportThenLoad | app/platform/tenants/tenant_registry.py:49-69 | With null read as no expiry, every tenant with a non-empty id, name and display name loads back from its `to_dict` as itself |
| TenantLoader.ExportGet | app/platform/tenants/tenant_registry.py:49-69 | Each key of an exported tenant holds that field's value and no other key is present |
| TenantLoader.ParseIdentityOfExport | app/platform/tenants/yaml_loader.py:21-44 | The identity stage reads back the exported id, names, description, domain and owner |
| TenantLoader.ParseLimitsOfExport | app/platform/tenants/yaml_loader.py:36-41 | The limits stage reads back the exported tier, status, quotas and features |
| TenantLoader.ParseTimesOfExport | app/platform/tenants/yaml_loader.py:48-51 | The timeline stage reads back the exported creation and update times |
| TenantLoader.ParseFieldsOfExport | app/platform/tenants/yaml_loader.py:18-51 | An exported tenant reads back as itself except for its expiry |
| TenantLoader.ExportedTenantsLoadBack | app/platform/tenants/yaml_loader.py:15-16 | A `tenants` document exported from such tenants loads back, under the corrected loader, as the same tenants in order |
| TenantService.Replace | app/platform/tenants/tenant_service.py:45-46 | Unregistering a tenant and then registering its new record fails exactly when another tenant holds the new record's domain. In that case the old tenant is already gone; otherwise the new record, stamped now, takes its place |
| TenantService.ReplaceDomainCheck | app/platform/tenants/tenant_service.py:45-46 | Once the old record's domain has left the index, the new record's domain clashes exactly when another tenant holds it |
| TenantService.ImportItemAsWritten | app/platform/tenants/tenant_service.py:38-61 | The loop body as written. Known id without update: skipped, unchanged. New id: imported, or the registration error with nothing changed. Known id with update: updated, unless another tenant holds the new domain; then the item is an error and the existing tenant has been removed |
| TenantService.ImportItem | app/platform/tenants/tenant_service.py:38-61 | The corrected loop body checks the domain before unregistering. It agrees with the loop as written in every case except a refused update, which now leaves the registry exactly as it was |
| TenantService.ImportItems | app/platform/tenants/tenant_service.py:27-69 | Every item lands in exactly one of the four lists, and total = len(items). No tenant registered before the import is lost. Without `update_existing` nothing is updated and no registered tenant changes. Every imported, updated or skipped id is registered. Re-importing an all-registered batch skips every id and changes nothing |
| TenantService.Ids | app/platform/tenants/tenant_service.py:38-56 | The ids of a batch, one per item, in order |
| Declarative.ParseAll | app/platform/core/declarative_manager.py:62-65 | A successful list load has one record per element |
| Declarative.ObjectItems | app/platform/core/declarative_manager.py:67-74 | The object form contributes only dict items |
| Declarative.ParseAllErrExtends | app/platform/core/declarative_manager.py:62-65 | The first item that fails decides the result of every longer list |
| Declarative.ParseAllInOrder | app/platform/core/declarative_manager.py:62-65 | A successful load holds, at each position, the parse of the element at that position |
| Declarative.ParseAllAborts | app/platform/core/declarative_manager.py:62-65 | One item that fails to parse fails the whole load; there is no per-item catch |
| Declarative.ObjectItemsCount | app/platform/core/declarative_manager.py:67-74 | Each dict-valued entry of the object form contributes exactly one item, and other entries none |
| Declarative.LoadFromDict | app/platform/core/declarative_manager.py:42-76 | The loop computes LoadSpec: a non-dict, non-list document raises "Invalid YAML format: expected dict or list"; a dict holding the root key uses its value, any other dict or list is the items |
| Declarative.WrappedListIsBareList | app/platform/core/declarative_manager.py:50-57 | A list under the root key loads exactly as the same list given bare |
| Declarative.ScalarUnderRootLoadsNothing | app/platform/core/declarative_manager.py:61-76 | A root key holding neither a list nor a dict loads as no items, without error |
| Declarative.ExportDocument | app/platform/core/declarative_manager.py:171-192 | The export is a dict whose only key is the root key, mapped to the items' dicts in order |
| Declarative.ParseAllInverse | app/platform/core/declarative_manager.py:62-65 | When parsing inverts to_dict item by item, it inverts it for the whole list |
| Declarative.ExportThenLoadDocument | app/platform/core/declarative_manager.py:42-76 | An exported document loads back as the items it was exported from (round trip) |
| Declarative.Record | app/platform/core/declarative_manager.py:154-160 | Filing an outcome grows exactly one of imported, updated, skipped or errors, by that item's id, and leaves total alone |
| AgentRegistry.KeysUpdate | app/platform/agents/agent_registry.py:111-116 | Overwriting one agent replaces only that agent's type and category keys in the index key maps |
| AgentRegistry.KeysRemove | app/platform/agents/agent_registry.py:166-172 | Removing an agent removes only its own keys from the type and category key maps |
| AgentRegistry.TypeRegistered | app/platform/agents/agent_registry.py:111-112 | Filing a new agent's id under its type keeps the type index exact: each bucket holds exactly the ids of that type |
| AgentRegistry.CategoryRegistered | app/platform/agents/agent_registry.py:113-116 | Filing a new agent's id under its category (bucket created on first use) keeps the category index exact |
| AgentRegistry.RegisterConsistent | app/platform/agents/agent_registry.py:77-118 | Registering a new id preserves the registry invariant: order lists each agent once, ids match, both indexes are exact |
| AgentRegistry.UnregisterConsistent | app/platform/agents/agent_registry.py:158-174 | Unregistering a registered id preserves the registry invariant |
| AgentRegistry.UpdateStatusConsistent | app/platform/agents/agent_registry.py:176-183 | Changing status and update time leaves both indexes and the order valid |
| AgentRegistry.SelectSound | app/platform/agents/agent_registry.py:143-156 | Every agent `list` returns is a registered agent among the candidates and passes the status filter and the any-tag filter (at least one requested tag) |
| AgentRegistry.SelectComplete | app/platform/agents/agent_registry.py:143-156 | Every registered candidate that passes the filters is returned |
| AgentRegistry.ListByTypeExact | app/platform/agents/agent_registry.py:135-137 | `list(agent_type=T)` returns a registered agent if and only if its type is T |
| AgentRegistry.ListByCategoryExact | app/platform/agents/agent_registry.py:138-140 | `list(category=c)` with non-empty c returns a registered agent if and only if its category is c |
| AgentRegistry.SearchSpec | app/platform/agents/agent_registry.py:185-196 | Search results are registered agents whose name, description or some tag contains the query |
| AgentRegistry.SearchComplete | app/platform/agents/agent_registry.py:185-196 | Every registered agent matching the query is in the search result |
| AgentRegistry.Registry.constructor | app/platform/agents/agent_registry.py:72-75 | A new registry is empty and valid |
| AgentRegistry.Registry.Register | app/platform/agents/agent_registry.py:77-118 | A known id raises "Agent X already registered" and changes nothing; otherwise the agent is stored with status registered, appended to the order and filed in both indexes, and the invariant holds |
| AgentRegistry.Registry.Get | app/platform/agents/agent_registry.py:120-122 | Returns the agent exactly when the id is registered |
| AgentRegistry.Registry.List | app/platform/agents/agent_registry.py:124-156 | Returns the filtered candidates, which ListByTypeExact, ListByCategoryExact, SelectSound and SelectComplete characterise |
| AgentRegistry.Registry.Unregister | app/platform/agents/agent_registry.py:158-174 | Returns whether the id was registered; if it was, it leaves the map, the order and both buckets; the invariant holds |
| AgentRegistry.Registry.UpdateStatus | app/platform/agents/agent_registry.py:176-183 | Returns whether the id was registered; if it was, only that agent's status and update time change |
| AgentRegistry.Registry.Search | app/platform/agents/agent_registry.py:185-196 | Returns the registered agents matching the query in registration order (SearchSpec, SearchComplete) |
| AgentLoader.TypeOrCustom | app/platform/agents/yaml_loader.py:30-34 | A type name that names no agent type becomes custom; every other result is the type the value names |
| AgentLoader.ParseStatus | app/platform/agents/yaml_loader.py:52 | A status is accepted only when the value is that status's name; anything else raises |
| AgentLoader.EnumNamesRoundTrip | app/platform/agents/agent_registry.py:12-27 | Type and status names read back as the same type and status |
| AgentLoader.ParseHead | app/platform/agents/yaml_loader.py:21-37 | Neither `id` nor `agent_id` truthy raises "Agent 'id' is required"; otherwise the id is the first truthy one, version defaults to 1.0.0 and the type is read from agent_type, then agentType, then "custom" |
| AgentLoader.ParseRest | app/platform/agents/yaml_loader.py:48-59 | Only tags, capabilities, status and timestamps are set here; a missing status is registered and a missing created_at is the load time |
| AgentLoader.ParseAgent | app/platform/agents/yaml_loader.py:18-61 | Only a dict item can load, and a loaded agent has a non-empty id |
| AgentLoader.UnknownTypeIsCustom | app/platform/agents/yaml_loader.py:31-34 | An unknown agent_type does not fail the load: the agent is custom |
| AgentLoader.SetIdField | app/platform/agents/yaml_loader.py:67-70 | `id` is written only when absent, and no other key changes |
| AgentLoader.ObjectFormTakesKey | app/platform/agents/yaml_loader.py:63-70 | In the object form an item without id fields takes its key as its id |
| AgentLoader.ExportGet | app/platform/agents/agent_registry.py:49-66 | Each key of `to_dict` reads back the attribute written under it |
| AgentLoader.ParseHeadOfExport | app/platform/agents/yaml_loader.py:21-37 | Reading the head fields of an exported agent gives back its id, name, description, version, type, author and category |
| AgentLoader.ParseRestOfExport | app/platform/agents/yaml_loader.py:48-59 | Reading the other fields of an exported agent gives back its tags, capabilities, status and timestamps |
| AgentLoader.ExportThenLoad | app/platform/agents/yaml_loader.py:18-61 | Every exportable agent loads back from its own `to_dict` as itself (round trip) |
| AgentLoader.ExportedAgentsLoadBack | app/platform/agents/yaml_loader.py:15-16 | A document of exported agents under "agents" loads back as the same agents, in order |
| AgentService.Stored | app/platform/agents/agent_service.py:64-80 | An imported agent keeps its id, type, tags and status; both timestamps are the import time |
| AgentService.Install | app/platform/agents/agent_service.py:64-80 | Registering an agent and then re-applying a non-default status stores exactly Stored(a, now), and the registry stays valid |
| AgentService.StatusReapplied | app/platform/agents/agent_service.py:57-58 | Registering with status registered and then setting the incoming status gives the same record as storing it directly |
| AgentService.ImportItem | app/platform/agents/agent_service.py:35-81 | One item: a new id is imported, a known id is replaced when updating and skipped (no change) otherwise |
| AgentService.ImportItems | app/platform/agents/agent_service.py:22-94 | The registry ends as the item-by-item merge of the batch and the returned counts are its summary |
| Merging.Merge | app/platform/agents/agent_service.py:35-61 | After one item its id is registered and nothing is lost; a skip changes nothing, otherwise the id maps to the stored record |
| Merging.RemoveThenPut | app/platform/agents/agent_service.py:41-42 | Unregistering then registering an id is the same as overwriting its record |
| Merging.MergeStep | app/platform/agents/agent_service.py:33-86 | Importing one more item extends the merge and the summary by exactly that item's outcome |
| Merging.Ids | app/platform/agents/agent_service.py:28-31 | The ids of a batch, one per item, in order |
| Merging.SummaryPartition | app/platform/agents/agent_service.py:88-94 | Every item lands in exactly one of imported, updated and skipped, total is the batch length, errors is empty, and nothing is updated unless updating is asked for |
| Merging.MergeAllRegisters | app/platform/agents/agent_service.py:33-81 | After an import every item's id is registered and no earlier record is lost |
| Merging.MergeAllKeepsExisting | app/platform/agents/agent_service.py:60-61 | Without update_existing, a record registered before the import is left as it was |
| Merging.ReimportSkipsAll | app/platform/agents/agent_service.py:60-61 | Re-importing a batch whose ids are all registered changes nothing and skips every id (idempotence) |
| Merging.MergeAllLastWins | app/platform/agents/agent_service.py:38-59 | With update_existing, the last item carrying an id decides what is stored under it |
| AgentManager.Prefix | app/platform/agents/agent_manager.py:84 | `s[:n]` is a prefix of s of length min(|s|, n) |
| AgentManager.InstanceName | app/platform/agents/agent_manager.py:84 | A non-empty given name is used; otherwise the agent's name, "_" and the first eight characters of the instance id |
| AgentManager.Initialized | app/platform/agents/agent_manager.py:93-119 | Initialisation keeps the instance's identity; it ends Running exactly when the factory does not raise, and in Error with the factory's message when it does |
| AgentManager.HeartbeatTimeoutNeverFires | app/platform/agents/agent_manager.py:203-211 | As written, the heartbeat is refreshed just before the timeout test, so the test never changes a running instance's status |
| AgentManager.StaleInstanceKeepsRunning | app/platform/agents/agent_manager.py:203-211 | A running instance silent for 1000 seconds stays Running under the loop as written, while the intended check puts it in Error |
| AgentManager.Beat | app/platform/agents/agent_manager.py:204-211 | Intended check: a running instance silent for more than 300 seconds goes to Error with "Heartbeat timeout"; any other is unchanged |
| AgentManager.BeatLeavesNoStaleRunner | app/platform/agents/agent_manager.py:204-211 | After the intended check no running instance has been silent beyond the limit, and a second check at the same time changes nothing (idempotence) |
| AgentManager.SelectInstances | app/platform/agents/agent_manager.py:173-188 | Every listed instance is stored and passes the agent-id and status filters |
| AgentManager.SelectInstancesComplete | app/platform/agents/agent_manager.py:173-188 | Every stored instance that passes both filters is listed |
| AgentManager.Manager.constructor | app/platform/agents/agent_manager.py:58-62 | A new manager holds no instances |
| AgentManager.Manager.Put | app/platform/agents/agent_manager.py:90 | Storing an instance overwrites its id's entry and keeps dict insertion order |
| AgentManager.Manager.CreateInstance | app/platform/agents/agent_manager.py:64-100 | An unregistered agent raises "Agent X not found in registry", an inactive one "Agent X is not active", both without change; otherwise the named instance is stored and initialised, and a factory failure is reported with the instance left stored in Error; a new id is appended to the listing order and a known id keeps its place |
| AgentManager.Manager.StartInstance | app/platform/agents/agent_manager.py:121-137 | Unknown id gives false; a running instance gives true unchanged; any other is re-initialised and the result says whether the factory succeeded; the listing order never changes |
| AgentManager.Manager.StopInstance | app/platform/agents/agent_manager.py:139-154 | Returns whether the id is known; a known instance becomes Stopped, the listing order is kept and nothing else changes |
| AgentManager.Manager.DeleteInstance | app/platform/agents/agent_manager.py:156-167 | Returns whether the id is known; a known instance is removed from the map and its id from the listing order |
| AgentManager.Manager.GetInstance | app/platform/agents/agent_manager.py:169-171 | Returns the instance exactly when the id is known |
| AgentManager.Manager.ListInstances | app/platform/agents/agent_manager.py:173-188 | Returns the instances in insertion order that pass the filters (SelectInstances, SelectInstancesComplete) |
| AgentManager.Manager.UpdateHeartbeat | app/platform/agents/agent_manager.py:190-194 | A known instance's last heartbeat becomes `now` and the listing order is kept; an unknown id changes nothing |
| AgentManager.Manager.CheckHeartbeats | app/platform/agents/agent_manager.py:196-211 | Every instance is replaced by its intended Beat at `now`; the order is kept |
| PluginRegistry.RegisterConsistent | app/platform/plugins/plugin_registry.py:97-103 | Storing a new id and appending it to each of its tags' buckets (a bucket is created on first use) keeps the registry invariant: the order lists each plugin once, ids match and the tag index is exact |
| PluginRegistry.UnregisterConsistent | app/platform/plugins/plugin_registry.py:128-141 | Removing a registered id from the map and from its tags' buckets keeps the registry invariant |
| PluginRegistry.ReplaceConsistent | app/platform/plugins/plugin_registry.py:148-152 | Changing a plugin in place without changing its id or tags, as `update_status` does, keeps the registry invariant |
| PluginRegistry.TagBucketExact | app/platform/plugins/plugin_registry.py:99-103 | On a consistent registry, a tag's bucket holds a plugin id exactly when that plugin is registered and carries the tag |
| PluginRegistry.ListExact | app/platform/plugins/plugin_registry.py:111-126 | `list` returns a plugin if and only if it is registered, has the given status (if any) and shares at least one given tag (if any) |
| PluginRegistry.Registry.constructor | app/platform/plugins/plugin_registry.py:63-65 | A new registry is empty and valid |
| PluginRegistry.Registry.Register | app/platform/plugins/plugin_registry.py:67-105 | A known id raises "Plugin X already registered" and changes nothing. Otherwise the new plugin is stored with status registered, both stamps now and no error, and returned. It is appended to the order and filed under each of its tags, and the invariant holds |
| PluginRegistry.Registry.Get | app/platform/plugins/plugin_registry.py:107-109 | Returns the plugin exactly when the id is registered |
| PluginRegistry.Registry.List | app/platform/plugins/plugin_registry.py:111-126 | The registered plugins in registration order that pass both filters (ListExact) |
| PluginRegistry.Registry.Unregister | app/platform/plugins/plugin_registry.py:128-141 | Returns whether the id was registered. If it was, the id leaves the map, the order and each of its tags' buckets, and the invariant holds |
| PluginRegistry.Registry.UpdateStatus | app/platform/plugins/plugin_registry.py:143-153 | Returns whether the id was registered. If it was, only that plugin changes, as StatusSet says, and the order and tag index are untouched |
| PluginRegistry.StatusSet | app/platform/plugins/plugin_registry.py:148-152 | The status and update time are replaced. The error message is replaced only by a non-empty one, so a success never clears an earlier error. No other field changes |
| PluginLoader.ParseStatus | app/platform/plugins/yaml_loader.py:44 | A loaded status is the status named by the value |
| PluginLoader.StatusNamesRoundTrip | app/platform/plugins/plugin_registry.py:52 | Every status's exported name loads back as that status |
| PluginLoader.ParseHead | app/platform/plugins/yaml_loader.py:21-31 | With neither a truthy `plugin_id` nor `id` the item is refused with "Plugin 'plugin_id' is required". A loaded plugin has id `plugin_id or id`, name `name or plugin_id`, version default "1.0.0" and author default "unknown". Its non-empty entry point is `entry_point or entryPoint`, and it starts registered with no error |
| PluginLoader.ParseRest | app/platform/plugins/yaml_loader.py:41-55 | Only dependencies, tags, status, path, timestamps and error message are set. Status defaults to registered, an absent `created_at` leaves the construction time, and an absent `error_message` leaves none |
| PluginLoader.ParsePlugin | app/platform/plugins/yaml_loader.py:18-57 | A plugin loads only from a dict, always with a non-empty id and entry point |
| PluginLoader.UnknownStatusFails | app/platform/plugins/yaml_loader.py:44 | A status that names no plugin status (e.g. "running") fails the item |
| PluginLoader.SetIdField | app/platform/plugins/yaml_loader.py:63-66 | `plugin_id` is written only when absent; every other key is untouched |
| PluginLoader.ExportGet | app/platform/plugins/plugin_registry.py:40-57 | Each key of an exported plugin holds that field's value and no other key is present |
| PluginLoader.ExportThenLoad | app/platform/plugins/plugin_registry.py:40-57 | Every plugin with non-empty id, name and entry point, and a path that is not empty, loads back from its `to_dict` as itself |
| PluginLoader.ExportedPluginsLoadBack | app/platform/plugins/yaml_loader.py:15-16 | A `plugins` document exported from such plugins loads back as the same plugins, in order |
| PluginService.Stored | app/platform/plugins/plugin_service.py:41-55 | An imported plugin keeps its id, status, tags and entry point, both timestamps become the import time, and its error message is dropped because registration takes none |
| PluginService.Install | app/platform/plugins/plugin_service.py:61-75 | Registering an unknown plugin from its fields and then applying a non-default status stores exactly Stored(p, now), and the registry stays valid |
| PluginService.StatusReapplied | app/platform/plugins/plugin_service.py:54-55 | Registering with status registered and then setting the incoming status gives the same map as storing Stored(p, now) directly |
| PluginService.ImportItem | app/platform/plugins/plugin_service.py:34-81 | A new id is imported; a known id is replaced when updating and skipped, with nothing changed, otherwise. The registry stays valid |
| PluginService.ImportItems | app/platform/plugins/plugin_service.py:22-89 | The registry ends as the item-by-item merge of the batch (Merging's lemmas: every id registered, last wins, a re-import without update skips all), and the result is its summary with total = len(items) |
| PluginManager.FirstUnavailable | app/platform/plugins/plugin_manager.py:56-59 | A reported dependency is one of the plugin's dependencies and is either unregistered or not active |
| PluginManager.FirstUnavailableNone | app/platform/plugins/plugin_manager.py:56-59 | No dependency is reported exactly when every dependency is registered and active |
| PluginManager.CheckDependencies | app/platform/plugins/plugin_manager.py:56-59 | The loop over the dependencies stops at the first one, in declaration order, that is unregistered or not active |
| PluginManager.Manager.constructor | app/platform/plugins/plugin_manager.py:41-43 | A new manager holds no instances |
| PluginManager.Manager.Put | app/platform/plugins/plugin_manager.py:74 | Storing an instance files it under its id and changes no other instance; a new id is appended to the load order and a known id keeps its place |
| PluginManager.Manager.LoadPlugin | app/platform/plugins/plugin_manager.py:45-86 | An unregistered plugin raises "Plugin X not found", and the first unavailable dependency raises "Plugin X depends on D which is not available"; neither changes anything. A module that fails to import sets the plugin's registry status to error with the raised text and re-raises. Otherwise a loaded instance is stored under its id and returned (a new id is appended to the load order), and the plugin's status becomes loaded |
| PluginManager.Manager.Switch | app/platform/plugins/plugin_manager.py:114-148 | Activate and deactivate give false for an unknown instance and change nothing. A hook that raises puts the instance in error with the raised text, gives false and leaves the registry alone. Otherwise the instance takes the target status, its plugin (if registered) takes the matching registry status, and the result is true. The load order never changes |
| PluginManager.Manager.GetInstance | app/platform/plugins/plugin_manager.py:150-152 | An instance is returned exactly when its id is stored, and it is the stored one |
| PluginManager.Manager.ListInstances | app/platform/plugins/plugin_manager.py:154-169 | The instances in load order that pass the plugin-id filter (an empty id lets all through) and the status filter |
| PluginManager.ListInstancesExact | app/platform/plugins/plugin_manager.py:154-169 | An instance is listed exactly when it is stored and passes both filters |
| BusinessModel.ParseStatus | app/platform/business/business_plugin.py:179 | A status is accepted only when the value is that status's name; anything else raises |
| BusinessModel.StatusNamesRoundTrip | app/platform/business/business_plugin.py:10-17 | Every status name reads back as the same status |
| BusinessModel.ParseCapability | app/platform/business/business_plugin.py:134-137 | A capability is accepted only when the value is that capability's name; any other string `x` raises "'x' is not a valid PluginCapability" |
| BusinessModel.CapabilityNamesRoundTrip | app/platform/business/business_plugin.py:20-27 | Every capability name reads back as the same capability |
| BusinessModel.Required | app/platform/business/business_plugin.py:164-168 | `data[k]`: a missing key raises KeyError; the read succeeds exactly when the key holds a string, and returns it |
| BusinessModel.ParseCapabilities | app/platform/business/business_plugin.py:134-137 | Missing capabilities read as none; otherwise the list read is exactly the names of the capabilities returned |
| BusinessModel.ParseHead | app/platform/business/business_plugin.py:131-169 | Follows `from_dict`'s evaluation order: a capability error comes first, then a nested configuration that does not fit its dataclass, then a missing plugin_id as KeyError. Success needs all five required keys and fitting configurations, and takes id and name from the keys and the capabilities from ParseCapabilities |
| BusinessModel.ParseRequired | app/platform/business/business_plugin.py:164-168 | A missing plugin_id raises KeyError; success needs all five keys and takes id and name from them |
| BusinessModel.UnknownKey | app/platform/business/business_plugin.py:31-66 | None exactly when every key is a field of the dataclass; otherwise a key of the dict that is not one |
| BusinessModel.MissingField | app/platform/business/business_plugin.py:31-66 | None exactly when every required field is a key; otherwise a required field that is not |
| BusinessModel.Misfit | app/platform/business/business_plugin.py:139-157 | `Config(**entry)` raises exactly when the entry does not fit the dataclass |
| BusinessModel.FirstMisfit | app/platform/business/business_plugin.py:139-157 | None exactly when every dict entry fits; otherwise the index of the first dict entry that does not, with every earlier one fitting |
| BusinessModel.CheckConfigs | app/platform/business/business_plugin.py:139-142 | A missing key passes; a list passes exactly when every dict entry in it fits the dataclass |
| BusinessModel.CheckAllConfigs | app/platform/business/business_plugin.py:139-157 | Passes exactly when the agents, tools, workflows and data_models comprehensions all pass; the agents error is reported first |
| BusinessModel.CapabilityErrorFirst | app/platform/business/business_plugin.py:134-164 | A record with no plugin_id and a capability that names none fails with the capability's ValueError, not the KeyError |
| BusinessModel.MisfitAgentRefused | app/platform/business/business_plugin.py:139-142 | An agents entry with a key AgentConfig does not declare fails the whole read |
| BusinessModel.ParseRest | app/platform/business/business_plugin.py:174-182 | Only the optional fields are set; status defaults to registered, enabled to true, entry_point to None; the timestamps become the load time and there is no runtime instance |
| BusinessModel.FromDict | app/platform/business/business_plugin.py:130-182 | Only a dict loads; a loaded plugin's nested agents, tools, workflows and data_models entries all fit their dataclasses, its capabilities are those listed, it is stamped with the load time and has no runtime instance |
| BusinessModel.UnknownCapabilityFails | app/platform/business/business_plugin.py:134-137 | A capability name that names no capability fails the whole read |
| BusinessModel.ExportGet | app/platform/business/business_plugin.py:105-128 | Each key of `to_dict` reads back the attribute written under it |
| BusinessModel.ParseHeadOfExport | app/platform/business/business_plugin.py:163-169 | Reading the required fields of an exported plugin gives back its id, name, version, description, author and capabilities |
| BusinessModel.ParseRestOfExport | app/platform/business/business_plugin.py:174-182 | Reading the optional fields of an exported plugin gives back its entry point, dependencies, tags, URLs, status and enabled flag |
| BusinessModel.ExportThenLoad | app/platform/business/business_plugin.py:105-182 | `from_dict(to_dict(p))` gives back p with every modelled field, except that the timestamps become the load time and the runtime instance is dropped |
| BusinessRegistry.KeysAfterPut | app/platform/business/plugin_registry.py:24-34 | Storing a plugin replaces only its own capability and tag keys in the index key maps |
| BusinessRegistry.KeysAfterRemove | app/platform/business/plugin_registry.py:87-96 | Removing a plugin removes only its own capability and tag keys |
| BusinessRegistry.RegisterConsistent | app/platform/business/plugin_registry.py:19-36 | Registering a new id, filing it once per capability and once per tag, preserves the registry invariant (order, ids, exact indexes) |
| BusinessRegistry.UnregisterConsistent | app/platform/business/plugin_registry.py:81-98 | Unregistering, removing one entry per capability and per tag, preserves the registry invariant |
| BusinessRegistry.ReplaceConsistent | app/platform/business/plugin_registry.py:100-106 | Changing a plugin without changing its id, capabilities or tags preserves the invariant |
| BusinessRegistry.CandidatesExact | app/platform/business/plugin_registry.py:52-63 | On a consistent registry an id is a candidate exactly when its plugin has the capability, or one of the tags, or no filter is given |
| BusinessRegistry.ListExact | app/platform/business/plugin_registry.py:42-79 | `list` returns a plugin if and only if it is registered, selected by capability or tags, and passes the status and enabled filters |
| BusinessRegistry.SearchExact | app/platform/business/plugin_registry.py:108-119 | `search` returns a plugin if and only if it is registered and its name, description or a tag contains the lower-cased query |
| BusinessRegistry.Registry.constructor | app/platform/business/plugin_registry.py:12-17 | A new registry is empty and valid |
| BusinessRegistry.Registry.Register | app/platform/business/plugin_registry.py:19-36 | A known id raises "Plugin X already registered" and changes nothing; otherwise the plugin is stored, appended to the order and filed under every capability and tag, and the invariant holds |
| BusinessRegistry.Registry.Get | app/platform/business/plugin_registry.py:38-40 | Returns the plugin exactly when the id is registered |
| BusinessRegistry.Registry.List | app/platform/business/plugin_registry.py:42-79 | Returns the candidates' plugins in candidate order that pass the filters (ListExact) |
| BusinessRegistry.Registry.Unregister | app/platform/business/plugin_registry.py:81-98 | Returns whether the id was registered; if it was, it leaves the map, the order and every bucket it was in |
| BusinessRegistry.Registry.UpdateStatus | app/platform/business/plugin_registry.py:100-106 | Returns whether the id was registered; if it was, only its status and update time change |
| BusinessRegistry.Registry.Search | app/platform/business/plugin_registry.py:108-119 | Returns the matching plugins in registration order (SearchExact) |
| BusinessManager.FirstUnavailable | app/platform/business/plugin_manager.py:28-31 | The reported dependency is one of the plugin's dependencies that is unregistered or not Active |
| BusinessManager.FirstUnavailableNone | app/platform/business/plugin_manager.py:28-31 | No dependency is reported exactly when every dependency is registered and Active |
| BusinessManager.LoadSucceeds | app/platform/business/plugin_manager.py:21-46 | A load succeeds exactly when the plugin is registered, every dependency is available and its entry point (if any) imports; the plugin then is Loaded with every other field unchanged except its instance |
| BusinessManager.ExecutorChoosesActive | app/platform/business/plugin_manager.py:129-146 | Without a plugin id, the plugin that runs is registered, Active, enabled, has the capability and an execute method |
| BusinessManager.NoActivePluginExactly | app/platform/business/plugin_manager.py:129-137 | Without a plugin id, "No active plugin found" is raised exactly when no registered plugin is Active and enabled with the capability |
| BusinessManager.SomeActiveRuns | app/platform/business/plugin_manager.py:129-140 | When the listing finds a plugin, the first one is a registered plugin that is Active, enabled and has the capability, and the call does not fail with "No active plugin found" |
| BusinessManager.NoneActiveRefused | app/platform/business/plugin_manager.py:129-137 | When the listing is empty, "No active plugin found" is raised and no registered plugin is Active and enabled with the capability |
| BusinessManager.NamedPluginIgnoresStatus | app/platform/business/plugin_manager.py:124-128 | A named plugin with the capability and an execute method runs whatever its status or enabled flag |
| BusinessManager.CheckDependencies | app/platform/business/plugin_manager.py:28-31 | The dependency loop finds FirstUnavailable |
| BusinessManager.Overwrite | app/platform/business/plugin_manager.py:37-44 | Changing a registered plugin in place, keeping its id, capabilities and tags, keeps the registry valid and every index unchanged |
| BusinessManager.Manager.constructor | app/platform/business/plugin_manager.py:17-19 | A new manager has no loaded plugin modules |
| BusinessManager.Manager.LoadPlugin | app/platform/business/plugin_manager.py:21-46 | The result is the load outcome; on success the registry holds the Loaded plugin, and an import that raises leaves the plugin marked Error; no index changes |
| BusinessManager.Manager.Stage | app/platform/business/plugin_manager.py:83-86 | The load inside activation: any load error leaves the plugin marked Error |
| BusinessManager.Manager.ActivatePlugin | app/platform/business/plugin_manager.py:74-97 | Unknown gives false and Active gives true, both with no change; otherwise a failed load or a raising activate hook marks the plugin Error and gives false, and success makes it Active and enabled |
| BusinessManager.Manager.DeactivatePlugin | app/platform/business/plugin_manager.py:99-114 | Unknown gives false with no change; a raising deactivate hook marks the plugin Error and gives false; otherwise it becomes Inactive and disabled |
| BusinessManager.Manager.ExecuteCapability | app/platform/business/plugin_manager.py:116-146 | The plugin chosen to execute, or the error raised instead, is Executor's answer, which the lemmas above characterise |
| Knowledge.ChunkMetadata | app/platform/knowledge/knowledge_base.py:182-187 | A chunk's metadata holds every key of the document's metadata plus title, source and document_type; those three take the document's own fields and every other key keeps the document's value |
| Knowledge.TileStep | app/platform/knowledge/knowledge_base.py:173-197 | A full-size chunk that stops short of the end, followed by a tiling that starts `overlap` characters before the chunk ends, tiles the text from the chunk's start |
| Knowledge.TileLast | app/platform/knowledge/knowledge_base.py:173-193 | A chunk that reaches the end of the text is the last one cut, and it tiles the text from its start alone |
| Knowledge.ChunksTile | app/platform/knowledge/knowledge_base.py:166-199 | The corrected chunking tiles the text. Each chunk is `content[start_char:end_char]` with `end_char <= len(content)`. Indexes count from 0 and each id is `document_id_chunk_<index>`. Every chunk but the last holds `chunk_size` characters. The next chunk starts `chunk_overlap` before the previous one ends, and the last ends at the end of the text. Empty content gives no chunks, and only empty content does |
| Knowledge.ChunksCover | app/platform/knowledge/knowledge_base.py:173-197 | No character is lost: every position of a non-empty text lies inside some chunk |
| Knowledge.OverlapNeverFinishes | app/platform/knowledge/knowledge_base.py:196 | The loop as written, with any positive overlap, never finishes on a non-empty text, however many iterations it is given: once a chunk reaches the end, `end - overlap` is again inside the text |
| Knowledge.AsWrittenWithoutOverlap | app/platform/knowledge/knowledge_base.py:173-197 | With overlap 0 the loop as written finishes (given more iterations than characters) and produces exactly the corrected chunking |
| Knowledge.IndexedDoc | app/platform/knowledge/knowledge_base.py:126-164 | Indexing replaces the chunks with the chunking of the content and changes nothing else but status and stamps. On success the status is indexed and both `indexed_at` and `updated_at` are now. When embedding or storing fails, the status is error, the failure text is recorded under "error" in the metadata and the stamps are untouched |
| Knowledge.Edited | app/platform/knowledge/knowledge_base.py:286-293 | A missing or empty title or content leaves that field unchanged, and a non-empty one replaces it. The metadata is merged with the new keys winning. `updated_at` becomes now, and id, source, type, status, chunks and the other stamps are kept |
| Knowledge.UpdateReindexes | app/platform/knowledge/knowledge_base.py:288-302 | After an update with new non-empty content and a successful re-index, the document holds the new content, is indexed, and its chunks tile the new content |
| Knowledge.ChunksTiledAlike | app/platform/knowledge/knowledge_base.py:166-199 | Chunking depends only on the document's content, id and chunk metadata: two documents that agree on those are tiled by the same chunks |
| Knowledge.Preview | app/platform/knowledge/knowledge_base.py:67 | A text of at most 100 characters is shown whole; a longer one is shown as its first 100 characters followed by "...", 103 characters in all |
| Knowledge.SummaryShowsPreview | app/platform/knowledge/knowledge_base.py:62-76 | `to_dict` reports the content as its preview and `chunk_count` as the number of chunks |
| Knowledge.KnowledgeBase.constructor | app/platform/knowledge/knowledge_base.py:82-95 | A new knowledge base keeps its name, chunk size and overlap and holds no documents |
| Knowledge.KnowledgeBase.ChunkDocument | app/platform/knowledge/knowledge_base.py:166-199 | The chunking loop returns exactly the corrected chunking of the document (with `ChunksTile`: a tiling of its text) |
| Knowledge.KnowledgeBase.GetDocument | app/platform/knowledge/knowledge_base.py:236-238 | A document is returned exactly when its id is stored, and it is the stored one |
| Knowledge.KnowledgeBase.IndexDocument | app/platform/knowledge/knowledge_base.py:126-164 | An unknown id gives false and changes nothing. A known id has its document replaced by the indexed document and nothing else changes. The result is true exactly when the id is known and embedding and storing succeeded |
| Knowledge.KnowledgeBase.AddDocument | app/platform/knowledge/knowledge_base.py:97-124 | A pending document with no chunks is stored under the drawn id with both stamps now. With auto-index it is indexed at once. The returned document is the stored one, and a new id is appended to the insertion order |
| Knowledge.KnowledgeBase.ListDocuments | app/platform/knowledge/knowledge_base.py:240-255 | The documents in insertion order that pass the type filter (an empty type lets all through) and the status filter |
| Knowledge.ListDocumentsExact | app/platform/knowledge/knowledge_base.py:240-255 | A document is listed exactly when it is stored and passes both filters |
| Knowledge.KnowledgeBase.DeleteDocument | app/platform/knowledge/knowledge_base.py:257-271 | An unknown id gives false with no change. A failing vector-store delete of a chunked document propagates its error with no change. Otherwise the result is true, that id is gone and every other document remains in order |
| Knowledge.KnowledgeBase.UpdateDocument | app/platform/knowledge/knowledge_base.py:273-304 | An unknown id gives false and changes nothing. For a known id, when a re-index is asked, the document has chunks and the vector-store delete raises, the edits stay, no re-index happens and the error is raised. Otherwise the document is replaced by the edited document, re-indexed when asked, and the result is true. The order never changes and no other document changes |
| KnowledgeRegistry.Filled | app/platform/knowledge/knowledge_registry.py:29-35 | A missing or empty collection name becomes "kb_" + name and a given one is kept; a missing timestamp becomes the registration time and a given one is kept; no other field changes |
| KnowledgeRegistry.KeysAfterPut | app/platform/knowledge/knowledge_registry.py:37-44 | Storing a knowledge base replaces only its own status and tag keys in the index key maps |
| KnowledgeRegistry.KeysAfterRemove | app/platform/knowledge/knowledge_registry.py:95-103 | Removing a knowledge base removes only its own keys from the index key maps |
| KnowledgeRegistry.RegisterConsistent | app/platform/knowledge/knowledge_registry.py:37-44 | Storing a new id, appending it to its status bucket and to each of its tags' buckets keeps the registry invariant: the order lists each knowledge base once, ids match and both indexes are exact |
| KnowledgeRegistry.UnregisterConsistent | app/platform/knowledge/knowledge_registry.py:89-105 | Removing a registered id from the map, its status bucket and its tags' buckets keeps the registry invariant |
| KnowledgeRegistry.StatusMoveIndexed | app/platform/knowledge/knowledge_registry.py:117-120 | Taking the id out of its old status bucket and appending it to the new one keeps the status index exact |
| KnowledgeRegistry.RestampKeeps | app/platform/knowledge/knowledge_registry.py:112-115 | Changing a stored knowledge base's status and stamp in place keeps the order and the tag index valid, and changes only its own status key |
| KnowledgeRegistry.StatusMoveConsistent | app/platform/knowledge/knowledge_registry.py:107-122 | A status change together with the bucket move keeps the registry invariant |
| KnowledgeRegistry.CandidatesCover | app/platform/knowledge/knowledge_registry.py:61-71 | Every registered knowledge base passing the filters is among the ids `list` walks: the status's bucket, else the union of the tags' buckets, else all |
| KnowledgeRegistry.ListExact | app/platform/knowledge/knowledge_registry.py:52-87 | `list` returns a knowledge base if and only if it is registered, has the given status (if any) and shares at least one given tag (if any) |
| KnowledgeRegistry.SearchExact | app/platform/knowledge/knowledge_registry.py:124-135 | `search` returns a knowledge base if and only if it is registered and the lower-cased query occurs in its lower-cased name, description or some tag |
| KnowledgeRegistry.Registry.constructor | app/platform/knowledge/knowledge_registry.py:17-22 | A new registry is empty and valid |
| KnowledgeRegistry.Registry.Register | app/platform/knowledge/knowledge_registry.py:24-46 | A known id raises "Knowledge base X already registered" and changes nothing. Otherwise the record with its defaults filled in is stored and returned, and the id is appended to the order, its status bucket and each of its tags' buckets. The invariant holds |
| KnowledgeRegistry.Registry.Get | app/platform/knowledge/knowledge_registry.py:48-50 | Returns the knowledge base exactly when the id is registered |
| KnowledgeRegistry.Registry.List | app/platform/knowledge/knowledge_registry.py:52-87 | Returns the candidates' knowledge bases that pass both filters, in candidate order, which ListExact characterises |
| KnowledgeRegistry.Registry.Unregister | app/platform/knowledge/knowledge_registry.py:89-105 | Returns whether the id was registered. If it was, the id leaves the map, the order, its status bucket and its tags' buckets, and the invariant holds |
| KnowledgeRegistry.Registry.UpdateStatus | app/platform/knowledge/knowledge_registry.py:107-122 | Returns whether the id was registered. If it was, only that knowledge base's status and update time change, and its id moves to the end of the new status's bucket |
| KnowledgeRegistry.Registry.Search | app/platform/knowledge/knowledge_registry.py:124-135 | Returns the matching registered knowledge bases in registration order (SearchExact) |
| KnowledgeLoader.ParseStatus | app/platform/knowledge/yaml_loader.py:39 | A status loads exactly when it is one of active, inactive or archived, and it is the status of that name |
| KnowledgeLoader.StatusNamesRoundTrip | app/platform/knowledge/knowledge_config.py:11-15 | Every status's name loads back as that status |
| KnowledgeLoader.OptInstant | app/platform/knowledge/yaml_loader.py:45-48 | An absent timestamp key leaves the field unset; a present one must be an instant (a null is refused) and sets the field |
| KnowledgeLoader.ParseKbHead | app/platform/knowledge/yaml_loader.py:21-34 | With neither a truthy `kb_id` nor `id` the item is refused with "Knowledge base 'kb_id' is required". Otherwise the id is `kb_id or id`, the name is `name or kb_id`, and description, vector store type and embedding model default to "", "chromadb" and "text-embedding-3-small" |
| KnowledgeLoader.ParseKbRest | app/platform/knowledge/yaml_loader.py:35-48 | Only the chunking, collection, directory, status, tag and timestamp fields are set. Chunk size defaults to 1000, overlap to 200 and status to active, and the collection stays unset when absent. `created_at` is set exactly when its key is present |
| KnowledgeLoader.ParseKnowledgeBase | app/platform/knowledge/yaml_loader.py:18-50 | A knowledge base loads only from a dict and always carries a non-empty id |
| KnowledgeLoader.IdOnlyDefaults | app/platform/knowledge/yaml_loader.py:21-42 | An item giving only `kb_id` loads as a knowledge base named after its id with every documented default: chromadb, text-embedding-3-small, 1000, 200, no collection, active, no tags |
| KnowledgeLoader.SetKbIdField | app/platform/knowledge/yaml_loader.py:56-59 | `kb_id` is written, as the item's key, only when absent; every other key is untouched |
| KnowledgeLoader.ExportGet | app/platform/knowledge/knowledge_config.py:36-53 | Each key of an exported knowledge base holds that field's value and no other key is present |
| KnowledgeLoader.ExportThenLoad | app/platform/knowledge/knowledge_config.py:36-53 | Every knowledge base with a non-empty id and name and both timestamps set loads back from its `to_dict` as itself |
| KnowledgeLoader.UnstampedExportFails | app/platform/knowledge/knowledge_config.py:51 | A knowledge base whose `created_at` was never set exports it as null, and that export cannot be loaded back |
| KnowledgeLoader.FilledExportable | app/platform/knowledge/knowledge_registry.py:31-34 | Every knowledge base the registry has stamped, with a non-empty id and name, satisfies the round trip's condition |
| KnowledgeLoader.ExportedKnowledgeBasesLoadBack | app/platform/knowledge/yaml_loader.py:15-16 | A `knowledge_bases` document exported from such knowledge bases loads back as the same knowledge bases, in order |
| KnowledgeLoader.ParseDocHead | app/platform/knowledge/yaml_loader.py:71-77 | A document needs `document_id or id` (else "Document 'document_id' is required") and then a truthy `kb_id` (else "Document 'kb_id' is required"); it parses exactly when both are given |
| KnowledgeLoader.ParseDocument | app/platform/knowledge/yaml_loader.py:68-104 | A loaded document has non-empty document and knowledge-base ids taken from the item. Type defaults to "txt", status to "pending", and content length and chunk count to 0. `indexed_at` is set exactly when its key is present |
| KnowledgeLoader.DocumentNeedsKnowledgeBase | app/platform/knowledge/yaml_loader.py:75-77 | A document item naming its id but no knowledge base is refused with "Document 'kb_id' is required", whatever else it holds |
| KnowledgeLoader.SetDocumentIdField | app/platform/knowledge/yaml_loader.py:110-113 | `document_id` is written only when absent; every other key is untouched |
| KnowledgeService.StoredOver | app/platform/knowledge/knowledge_service.py:39-52 | The imported record is stored with the registry's defaults filled in and keeps its id, name, status and tags. Its update time is the import time when the status differs from the replaced record's, and it is otherwise exactly the filled-in record |
| KnowledgeService.StatusReapplied | app/platform/knowledge/knowledge_service.py:41-45 | Unregistering, registering the new record and then re-applying its differing status leaves the same map as storing StoredOver directly |
| KnowledgeService.ImportItem | app/platform/knowledge/knowledge_service.py:35-57 | A new id is imported; a known id is replaced when updating and skipped, with nothing changed, otherwise. The registry stays valid |
| KnowledgeService.ImportItems | app/platform/knowledge/knowledge_service.py:23-65 | The registry ends as the item-by-item merge of the batch (Merging's lemmas: every id registered, last wins, a re-import without update skips all), and the result is its summary with total = len(items) |
| KnowledgeService.SameStatusKeepsStamp | app/platform/knowledge/knowledge_service.py:44-45 | A re-imported knowledge base whose status equals the registered one keeps the import's own update time, because update_status is not called |
| DataSourceRegistry.NewRecord | app/platform/data_sources/data_source_registry.py:129-146 | A registered source starts with status registered, no check time, no error, both timestamps the registration time, and every given field as given |
| DataSourceRegistry.Checked | app/platform/data_sources/data_source_registry.py:224-229 | After update_status the record has the new status, check time now, the given error message and update time now; nothing else changes |
| DataSourceRegistry.KeysAfterPut | app/platform/data_sources/data_source_registry.py:148-155 | Storing a source replaces only its own type and market keys in the index key maps |
| DataSourceRegistry.KeysAfterRemove | app/platform/data_sources/data_source_registry.py:209-218 | Removing a source removes only its own type and market keys |
| DataSourceRegistry.RegisterConsistent | app/platform/data_sources/data_source_registry.py:106-157 | Registering a new id, filed under its type and each market, preserves the invariant (order, ids, exact indexes) |
| DataSourceRegistry.UnregisterConsistent | app/platform/data_sources/data_source_registry.py:204-220 | Unregistering a registered id preserves the invariant |
| DataSourceRegistry.ReplaceKeeps | app/platform/data_sources/data_source_service.py:67-77 | Replacing a record under its own id with the same type keeps the order and the type index |
| DataSourceRegistry.MarketMoveIndexed | app/platform/data_sources/data_source_service.py:72 | Taking an id out of its old market buckets and filing it under its new markets keeps the market index exact |
| DataSourceRegistry.ReplaceConsistent | app/platform/data_sources/data_source_service.py:67-77 | Replacing a record and moving it between market buckets keeps the registry consistent |
| DataSourceRegistry.CandidatesCover | app/platform/data_sources/data_source_registry.py:175-180 | On a consistent registry every source of the requested type (or, with no type, of the requested market) is a candidate |
| DataSourceRegistry.CandidatesSound | app/platform/data_sources/data_source_registry.py:175-180 | Every registered candidate has the requested type, or with no type the requested market |
| DataSourceRegistry.PickedExact | app/platform/data_sources/data_source_registry.py:183-197 | The kept candidates are exactly the registered sources that pass every filter |
| DataSourceRegistry.ListExact | app/platform/data_sources/data_source_registry.py:163-202 | `list` returns a source if and only if it is registered, passes the status, enabled and any-tag filters, and has the requested type or, with no type, the requested market; a market given with a type is not applied |
| DataSourceRegistry.ByPriorityOrders | app/platform/data_sources/data_source_registry.py:199-200 | The sort puts the highest priority first, is a permutation, and keeps sources of equal priority in their order (stable) |
| DataSourceRegistry.SearchExact | app/platform/data_sources/data_source_registry.py:233-245 | `search` returns a source if and only if it is registered and its name, display name, description or a tag contains the lower-cased query |
| DataSourceRegistry.Registry.constructor | app/platform/data_sources/data_source_registry.py:99-104 | A new registry is empty and valid, with an empty bucket per type |
| DataSourceRegistry.Registry.Register | app/platform/data_sources/data_source_registry.py:106-157 | A known id raises "Data source X already registered" and changes nothing; otherwise NewRecord is stored, appended and filed under its type and markets, and the invariant holds |
| DataSourceRegistry.Registry.Get | app/platform/data_sources/data_source_registry.py:159-161 | Returns the source exactly when the id is registered |
| DataSourceRegistry.Registry.List | app/platform/data_sources/data_source_registry.py:163-202 | The loop and the sort compute Listed (ListExact, ByPriorityOrders) |
| DataSourceRegistry.Registry.Unregister | app/platform/data_sources/data_source_registry.py:204-220 | Returns whether the id was registered; if it was, it leaves the map, the order, its type bucket and every market bucket |
| DataSourceRegistry.Registry.UpdateStatus | app/platform/data_sources/data_source_registry.py:222-231 | Returns whether the id was registered; if it was, the record becomes Checked and no index changes |
| DataSourceRegistry.Registry.Replace | app/platform/data_sources/data_source_service.py:67-77 | Writes a changed record back under its id and re-files it from its old markets to its new ones, keeping the invariant |
| DataSourceRegistry.Registry.Search | app/platform/data_sources/data_source_registry.py:233-245 | Returns the matching sources in registration order (SearchExact) |
| DataSourceLoader.ParseType | app/platform/data_sources/yaml_loader.py:87 | A type is accepted only when the value is a type's name; any other string raises "'x' is not a valid DataSourceType" |
| DataSourceLoader.TypeNamesRoundTrip | app/platform/data_sources/data_source_registry.py:21-29 | Every type name reads back as the same type |
| DataSourceLoader.ParseHead | app/platform/data_sources/yaml_loader.py:74-79 | A falsy source_id raises "Data source 'source_id' is required"; otherwise name defaults to the id and the display name to display_name, then displayName, then the name |
| DataSourceLoader.ParseKind | app/platform/data_sources/yaml_loader.py:86-91 | The type comes from source_type, then sourceType, then "stock"; enabled from is_active, then isActive, then true; priority defaults to 0, version to "1.0.0" and author to "unknown" |
| DataSourceLoader.ParseLists | app/platform/data_sources/yaml_loader.py:92-97 | Markets and features come from the snake_case key, then the camelCase one, then []; config defaults to {} and tags to [] |
| DataSourceLoader.ParseSource | app/platform/data_sources/yaml_loader.py:71-100 | A parsed source has the document's id, status registered, no adapter class, no check time, and the parse time as both timestamps |
| DataSourceLoader.ObjectKeyBecomesId | app/platform/data_sources/yaml_loader.py:59-66 | In the object form an entry without source_id takes its key as the id |
| DataSourceLoader.EmptyKeyRefused | app/platform/data_sources/yaml_loader.py:63-65 | An entry without its own source_id under an empty key is refused |
| DataSourceService.Overwritten | app/platform/data_sources/data_source_service.py:67-77 | An update takes exactly the ten metadata fields from the imported source and stamps the update time; id, name, type, version, author, adapter and status stay |
| DataSourceService.ImportItemAsWritten | app/platform/data_sources/data_source_service.py:60-91 | As written: a new source always ends in errors because of the register call; a known one is skipped, or overwritten in place with no index change |
| DataSourceService.AsWrittenRegistersNothing | app/platform/data_sources/data_source_service.py:85 | As written, importing into an empty registry registers nothing and reports every source as an error |
| DataSourceService.StaleMarketIndex | app/platform/data_sources/data_source_service.py:72 | A record written back in place with a new market is missing from list(market=m) for that market |
| DataSourceService.AsWrittenUpdateMissesMarket | app/platform/data_sources/data_source_service.py:64-78 | As written, a re-imported source that adds a market supports it but is not listed under it |
| DataSourceService.StoredOver | app/platform/data_sources/data_source_service.py:62-86 | What the registry holds after an import: the overwritten record for a known id, the new record otherwise |
| DataSourceService.ImportItem | app/platform/data_sources/data_source_service.py:60-91 | Corrected item step: the outcome is skip, update or import; an update re-files the source under its markets; the registry stays valid |
| DataSourceService.ImportSources | app/platform/data_sources/data_source_service.py:47-93 | Corrected import: the registry ends as the item-by-item merge of the batch with every index current, and the result is its summary (the Merging lemmas) |
| DataSourceService.MergedConfig | app/platform/data_sources/data_source_service.py:187-188 | A supplied config must be a dict; its keys overwrite and the other keys keep their values; without one the config is unchanged |
| DataSourceService.PatchText | app/platform/data_sources/data_source_service.py:179-198 | Display name, description and both links each take the supplied value, or keep the old one when the key is absent; nothing else changes |
| DataSourceService.PatchSettings | app/platform/data_sources/data_source_service.py:183-194 | Priority, enabled, markets, features and tags each take the supplied value, or keep the old one when the key is absent; nothing else changes |
| DataSourceService.Patched | app/platform/data_sources/data_source_service.py:178-200 | update_source keeps id, type, name, status and creation time, merges the config and stamps the update time |
| DataSourceService.WrittenBeforeRaise | app/platform/data_sources/data_source_service.py:179-188 | When only the config update raises, display name, description, priority and enabled already hold the supplied values; every other field is as it was |
| DataSourceService.UpdateAsWritten | app/platform/data_sources/data_source_service.py:168-201 | As written: an unknown id raises "Data source X not found" with no change; otherwise the result is the patched record, the map holds it in place of the old one, and on a raise the fields written before it stay |
| DataSourceService.AsWrittenUpdateSourceMissesMarket | app/platform/data_sources/data_source_service.py:189-190 | As written: a patch that adds a market leaves the patched source out of `list(market=...)` for that market |
| DataSourceService.AsWrittenConfigRaiseKeepsName | app/platform/data_sources/data_source_service.py:179-188 | As written: a patch with a display name and a null config raises, yet the new display name stays written |
| DataSourceService.UpdateSource | app/platform/data_sources/data_source_service.py:168-201 | Corrected: an unknown id raises "Data source X not found" with no change; a refused patch changes nothing; otherwise the patched record is stored and re-filed under its markets, keeping the registry valid |
| DataSourceService.DeleteSource | app/platform/data_sources/data_source_service.py:203-205 | Returns whether the id was registered; the source is then gone |
| DataSourceManager.Obtain | app/platform/data_sources/data_source_manager.py:20-48 | An adapter is returned exactly when the source is registered and either cached or constructible, and it is the cached one when there is one |
| DataSourceManager.ProbeResult | app/platform/data_sources/data_source_manager.py:32-46 | A constructor that raises marks the source Error with the message; otherwise it is Available or Unavailable with "Adapter not available", as is_available() answers |
| DataSourceManager.SecondCallCached | app/platform/data_sources/data_source_manager.py:26-28 | A second get_adapter for a source just built returns the same adapter and attempts no new construction |
| DataSourceManager.PrefKey | app/platform/data_sources/data_source_manager.py:65-68 | The priority of a preferred name is its last position in the preferred list, and 999 for any other name |
| DataSourceManager.FilterSorted | app/platform/data_sources/data_source_manager.py:66-67 | Keeping a subsequence of a sorted listing keeps it sorted |
| DataSourceManager.ArrangedPermutes | app/platform/data_sources/data_source_manager.py:64-69 | The preferred-first reordering is a permutation of the listing |
| DataSourceManager.ArrangedPreferredFirst | app/platform/data_sources/data_source_manager.py:66-69 | The preferred sources, and only they, come first |
| DataSourceManager.ArrangedPreferredOrder | app/platform/data_sources/data_source_manager.py:68 | The preferred sources are ordered by their position in the preferred list |
| DataSourceManager.ArrangedOthersByPriority | app/platform/data_sources/data_source_manager.py:67-69 | The other sources keep the priority order of the listing |
| DataSourceManager.Usable | app/platform/data_sources/data_source_manager.py:72-76 | At most one adapter per arranged source |
| DataSourceManager.UsableSnoc | app/platform/data_sources/data_source_manager.py:73-76 | One more source adds its adapter exactly when one is obtained and it reports itself available |
| DataSourceManager.ObtainStep | app/platform/data_sources/data_source_manager.py:73-74 | Earlier get_adapter calls in the loop do not change what a later call returns |
| DataSourceManager.ProbeAgain | app/platform/data_sources/data_source_manager.py:38-45 | Probing a source a second time gives what the first probe gave |
| DataSourceManager.ProbeStep | app/platform/data_sources/data_source_manager.py:73-74 | Each get_adapter in the loop advances the records by exactly that source |
| DataSourceManager.CachedStep | app/platform/data_sources/data_source_manager.py:73-74 | Each get_adapter in the loop advances the cache by exactly that source |
| DataSourceManager.FirstResultSpec | app/platform/data_sources/data_source_manager.py:86-96 | The fallback returns the data of the first adapter that delivers non-empty data without raising; it returns nothing exactly when no adapter delivers |
| DataSourceManager.Fallback | app/platform/data_sources/data_source_manager.py:88-96 | The fallback loop computes FirstResult |
| DataSourceManager.Manager.constructor | app/platform/data_sources/data_source_manager.py:16-18 | A new manager has no cached adapters |
| DataSourceManager.Manager.GetAdapter | app/platform/data_sources/data_source_manager.py:20-48 | Returns Obtain; caches a newly built adapter; records the probe in the registry; no index changes |
| DataSourceManager.Manager.GetAvailableAdapters | app/platform/data_sources/data_source_manager.py:50-78 | Returns the usable adapters of the arranged candidates, probing and caching each candidate |
| DataSourceManager.Manager.ProbeEach | app/platform/data_sources/data_source_manager.py:72-76 | The loop over the sources computes Usable, ProbeAll and BuiltAll |
| DataSourceManager.Manager.FetchWithFallback | app/platform/data_sources/data_source_manager.py:80-177 | Each fallback fetch returns the first delivering adapter's data among the available adapters (FirstResultSpec) |
| DataSourceManager.Manager.CheckAvailability | app/platform/data_sources/data_source_manager.py:179-187 | Returns true exactly when an adapter is obtained and reports itself available; its answer is recorded as the status |
| ProviderRegistry.RegisterConsistent | app/platform/providers/provider_manager.py:86 | Storing a new name keeps the registry invariant: insertion order lists each provider once under its own name |
| ProviderRegistry.UnregisterConsistent | app/platform/providers/provider_manager.py:103-104 | Removing a name keeps the registry invariant |
| ProviderRegistry.ListExact | app/platform/providers/provider_manager.py:93-99 | `list` returns a provider if and only if it is registered and, when `is_active` is given, has that flag; without it every provider is returned |
| ProviderRegistry.Registry.constructor | app/platform/providers/provider_manager.py:78-79 | A new registry is empty |
| ProviderRegistry.Registry.Register | app/platform/providers/provider_manager.py:81-87 | A registered name raises "Provider X already registered" and changes nothing; otherwise the provider is stored under its name, appended to the order and returned |
| ProviderRegistry.Registry.Get | app/platform/providers/provider_manager.py:89-91 | Returns the provider exactly when the name is registered |
| ProviderRegistry.Registry.List | app/platform/providers/provider_manager.py:93-99 | The registered providers in insertion order, filtered by `is_active` only when it is given (ListExact) |
| ProviderRegistry.Registry.Unregister | app/platform/providers/provider_manager.py:101-106 | Returns whether the name was registered; afterwards it is not, and every other provider remains |
| ProviderLoader.ParseNames | app/platform/providers/yaml_loader.py:74-78 | A falsy `name` is refused with "Provider 'name' is required". A loaded name is the given non-empty string, and the display name is `display_name or displayName or name` |
| ProviderLoader.ParseLinks | app/platform/providers/yaml_loader.py:84-90 | Description is taken as given, and the API doc URL is `api_doc_url or apiDocUrl`; the names already parsed are kept |
| ProviderLoader.ParseFlags | app/platform/providers/yaml_loader.py:88-91 | `is_active` falls back to `isActive` and then to true, and `is_aggregator` to `isAggregator` and then to false. Features are `supported_features or supportedFeatures or []`. No other field changes |
| ProviderLoader.ParseExtras | app/platform/providers/yaml_loader.py:92-94 | Extra config is `extra_config or extraConfig or {}`; only the aggregator fields and extra config are set |
| ProviderLoader.ParseProvider | app/platform/providers/yaml_loader.py:71-97 | A dict without a truthy name is refused with "Provider 'name' is required"; a loaded provider's name is the item's non-empty `name` |
| ProviderLoader.ObjectKeyBecomesName | app/platform/providers/yaml_loader.py:59-66 | In the object form an entry without a `name` key that loads is named after its key |
| ProviderLoader.PresentNameKept | app/platform/providers/yaml_loader.py:63-64 | An entry that has a `name` key is passed on unchanged, so its own name wins over the key, even an empty one |
| ProviderLoader.ExportGet | app/platform/providers/provider_manager.py:38-54 | Each key of an exported provider holds that field's value and no other key is present |
| ProviderLoader.OrStrOfExport | app/platform/providers/yaml_loader.py:86-93 | An optional string exported and read back through `a or b` (b absent) is itself unless it is empty |
| ProviderLoader.ExportThenParse | app/platform/providers/provider_manager.py:38-54 | Every provider with a non-empty name and display name, and no empty string in a field read through `or`, loads back from its `to_dict` as itself |
| ProviderLoader.ExportedProvidersLoadBack | app/platform/providers/yaml_loader.py:100-104 | The export writes `{"providers": [...]}`, and `load_from_dict` of that gives back the same providers, in order |
| ProviderManager.Refreshed | app/platform/providers/provider_manager.py:196-208 | After `update`'s `$set` the record holds the new metadata and the update time is now. The creation time is kept, and a credential not given keeps its stored value |
| ProviderManager.AfterCreate | app/platform/providers/provider_manager.py:147-177 | A name already in the database raises "Provider X already exists" and changes nothing. Otherwise the record is inserted with both stamps now. Registration then either stores the provider or raises "Provider X already registered", and in that case the inserted record stays |
| ProviderManager.AfterUpdate | app/platform/providers/provider_manager.py:179-216 | An unknown name raises "Provider X not found". Otherwise the refreshed record is stored and returned, and the provider is re-registered, which moves it to the end of the registry's order |
| ProviderManager.CreateSound | app/platform/providers/provider_manager.py:147-177 | `create` keeps every record under its own name and the registry consistent |
| ProviderManager.UpdateSound | app/platform/providers/provider_manager.py:179-216 | `update` keeps every record under its own name and the registry consistent |
| ProviderManager.ImportAllStep | app/platform/providers/provider_manager.py:266-282 | Importing one more provider extends the state and the result lists by exactly that provider's outcome |
| ProviderManager.ImportStepOutcome | app/platform/providers/provider_manager.py:266-282 | A provider is an error exactly when its name is new to the database but already registered, and the error reads "Provider X already registered". It is created exactly when the name is new to both. A known name is updated exactly when `update_existing` is set and skipped exactly when it is not |
| ProviderManager.ImportAllPartition | app/platform/providers/provider_manager.py:266-284 | Every provider lands in exactly one of created, updated, skipped and errors, and nothing is updated without `update_existing` |
| ProviderManager.ImportAllStoresEvery | app/platform/providers/provider_manager.py:266-282 | After the import every provider's name is in the database, including those filed as errors, and no earlier record is lost |
| ProviderManager.ImportAllKeepsExisting | app/platform/providers/provider_manager.py:273-274 | Without `update_existing`, a record in the database before the import is left as it was |
| ProviderManager.ImportAllSound | app/platform/providers/provider_manager.py:253-284 | A whole import keeps the database and the registry sound |
| ProviderManager.Manager.constructor | app/platform/providers/provider_manager.py:112-113 | The manager starts from the given database and a valid registry |
| ProviderManager.Manager.Get | app/platform/providers/provider_manager.py:231-239 | Returns the stored record exactly when the name is in the database |
| ProviderManager.Manager.Create | app/platform/providers/provider_manager.py:147-177 | Computes AfterCreate on the manager's state and keeps it valid |
| ProviderManager.Manager.Update | app/platform/providers/provider_manager.py:179-216 | Computes AfterUpdate on the manager's state and keeps it valid |
| ProviderManager.Manager.Delete | app/platform/providers/provider_manager.py:218-229 | The result is true exactly when a record was deleted. The registry then forgets the name too; otherwise nothing changes |
| ProviderManager.Manager.ImportOne | app/platform/providers/provider_manager.py:266-282 | One iteration of the import loop computes ImportStep |
| ProviderManager.Manager.ImportBatch | app/platform/providers/provider_manager.py:253-284 | The loop computes ImportAll (ImportAllPartition, ImportAllStoresEvery, ImportAllKeepsExisting) and keeps the state valid |
| DataSchema.ParseType | app/platform/data/schema.py:206-207 | A type string is accepted exactly when it is some schema type's value, and then gives that type; any other string raises |
| DataSchema.FieldEntries | app/platform/data/schema.py:92 | One (name, field dict) pair per field, keyed by the field's name, in field order |
| DataSchema.SchemaHeaderGet | app/platform/data/schema.py:86-90 | In the dict form, schema_id, name, description and version hold the schema's own values |
| DataSchema.SchemaAltKeysAbsent | app/platform/data/schema.py:84-97 | The dict form has no "$id" and no "title" key, so loading reads the primary spellings |
| DataSchema.SchemaBodyGet | app/platform/data/schema.py:92-94 | In the dict form, properties holds the field dicts, required the required names and metadata the metadata |
| DataSchema.RequiredNamesInOrder | app/platform/data/schema.py:93 | The required list is the names of the required fields, in field order |
| DataSchema.RequiredNamesExact | app/platform/data/schema.py:93 | A name is listed as required exactly when some field of that name is required |
| DataSchema.JsonEntries | app/platform/data/schema.py:110-112 | The first n fields give n property pairs named after the fields, unless a rendering fails |
| DataSchema.BarePropIsFieldProp | app/platform/data/schema.py:151-156 | A union member renders as the bare field FieldDefinition(name="", field_type=t) would |
| DataSchema.ScalarTypeKeyword | app/platform/data/schema.py:135-148 | A scalar field renders with its JSON Schema keyword (float is "number", datetime is "string" with format "date-time", enum is "string") unless a rule overrides it |
| DataSchema.JsonEntriesErrSticks | app/platform/data/schema.py:110-112 | The first field that fails to render decides the result for every longer prefix |
| DataSchema.JsonEntriesAt | app/platform/data/schema.py:110-112 | Each property pair holds its own field's rendering |
| DataSchema.JsonSchemaProperties | app/platform/data/schema.py:110-112 | In the JSON Schema a key is a property exactly when some field has that name, and it holds the rendering of the last field of that name |
| DataSchema.JsonRequiredIsDictRequired | app/platform/data/schema.py:113-115 | The JSON Schema's required list equals the dict form's: the required names in field order |
| DataSchema.ToJsonSchema | app/platform/data/schema.py:99-117 | The loop's result is JsonSchema(s), characterised by the two lemmas above |
| DataSchema.FieldFromDict | app/platform/data/schema.py:204-218 | A field is read only from a dict and keeps the given name; type defaults to string and required to true; union, nested and item schemas are never read |
| DataSchema.FromDict | app/platform/data/schema.py:187-201 | Both timestamps are the loading instant, and a dict without properties gives no fields |
| DataSchema.SchemaHeader | app/platform/data/schema.py:195-200 | The id comes from schema_id, else "$id", else ""; the name from name, else title, else ""; version defaults to "1.0.0" and metadata to {} |
| DataSchema.FieldDictGet | app/platform/data/schema.py:44-61 | In a plain field's dict, type and required always hold the field's values, and each optional key is present exactly when the field sets it |
| DataSchema.FieldRoundTrip | app/platform/data/schema.py:44-69 | A plain field's dict reads back as the same field |
| DataSchema.FieldsRoundTrip | app/platform/data/schema.py:189-192 | The properties of a loadable schema read back as its fields, in order |
| DataSchema.DistinctProperties | app/platform/data/schema.py:92 | With distinct field names the properties dict holds each field once, in field order |
| DataSchema.HeaderRoundTrip | app/platform/data/schema.py:195-200 | The header of a schema's dict form reads back as its id, name, description, version and metadata |
| DataSchema.ExportThenLoad | app/platform/data/schema.py:84-97 | `from_dict(to_dict(s))` gives back a loadable schema with both timestamps set to the loading instant |
| DataSchema.SearchExact | app/platform/data/schema.py:262-272 | `search` returns a schema if and only if it is registered and its name or description contains the lower-cased query |
| DataSchema.ListExact | app/platform/data/schema.py:251-253 | `list` returns every registered schema and nothing else |
| DataSchema.Registry.constructor | app/platform/data/schema.py:236-237 | A new registry is empty |
| DataSchema.Registry.Register | app/platform/data/schema.py:239-245 | A known id raises "Schema X already registered" and changes nothing; otherwise the schema is stored, appended and returned |
| DataSchema.Registry.Get | app/platform/data/schema.py:247-249 | Returns the schema exactly when the id is registered |
| DataSchema.Registry.List | app/platform/data/schema.py:251-253 | Returns the registered schemas in registration order (ListExact) |
| DataSchema.Registry.Unregister | app/platform/data/schema.py:255-260 | Returns whether the id was registered; if it was, it is removed |
| DataSchema.Registry.Search | app/platform/data/schema.py:262-272 | Returns the matching schemas in registration order (SearchExact) |
| DataValidator.Bounded | app/platform/data/validator.py:257-312 | A bound check reports only its own error |
| DataValidator.RuleIssue | app/platform/data/validator.py:249-314 | A rule error names the field and carries the value; None and dict values never trigger a rule |
| DataValidator.LengthBounds | app/platform/data/validator.py:257-272 | With a numeric bound, minLength and maxLength never raise and pass exactly when the string length is within the inclusive bound |
| DataValidator.NumberBounds | app/platform/data/validator.py:273-288 | With numeric value and bound (booleans count as numbers), minimum and maximum never raise and pass exactly when the value is within the inclusive bound |
| DataValidator.ItemBounds | app/platform/data/validator.py:297-312 | With a numeric bound, minItems and maxItems never raise and pass exactly when the array size is within the inclusive bound |
| DataValidator.PatternRule | app/platform/data/validator.py:289-296 | A string pattern flags exactly the strings it does not match; a pattern that is not a string raises |
| DataValidator.RuleIssues | app/platform/data/validator.py:132-137 | Every rule error names the field |
| DataValidator.Check | app/platform/data/validator.py:53-105 | The result is valid exactly when the error list is empty |
| DataValidator.CheckField | app/platform/data/validator.py:107-139 | A type error is the only error reported; with no type error the result fails exactly when a rule raises; each error names the field or a part of it, except errors from a referenced schema |
| DataValidator.CheckType | app/platform/data/validator.py:141-247 | None is an error only for a required field; a value of the wrong type gives a type_error; an error names the field or a part of it, except for references |
| DataValidator.CheckItems | app/platform/data/validator.py:209-221 | An item error names the array field followed by "[" |
| DataValidator.RuleIssuesErrSticks | app/platform/data/validator.py:132-137 | A rule that raises stops the remaining rules: its error is the result of the whole list |
| DataValidator.CheckFieldsErrSticks | app/platform/data/validator.py:75-93 | A field check that raises is the error of the whole validation |
| DataValidator.MissingExact | app/platform/data/validator.py:62-72 | The missing names are exactly the names of required fields the data lacks, each once |
| DataValidator.UnknownExact | app/platform/data/validator.py:95-99 | The unknown names are exactly the data's keys that name no field, each once |
| DataValidator.MissingReported | app/platform/data/validator.py:62-87 | A required field the data lacks is reported, even when it has a default, and the data is then invalid |
| DataValidator.CheckFieldsClean | app/platform/data/validator.py:75-93 | The field errors are empty exactly when every field present in the data checks without error |
| DataValidator.ValidExactly | app/platform/data/validator.py:53-105 | Data is valid if and only if no required field is missing and every field the data holds checks without error |
| DataValidator.ExtraKeyLookups | app/platform/data/validator.py:89 | A key added at the end leaves every other field's lookup unchanged |
| DataValidator.ExtraKeyMissing | app/platform/data/validator.py:62-65 | A key that names no field does not change the missing names |
| DataValidator.ExtraKeyFields | app/platform/data/validator.py:75-93 | A key that names no field does not change the field errors |
| DataValidator.UnknownKeyOnlyWarns | app/platform/data/validator.py:95-99 | A key the schema does not declare changes no error and no verdict; it only adds the "Unknown fields" warning |
| DataValidator.RulesIgnoreNone | app/platform/data/validator.py:257-314 | No validation rule applies to None |
| DataValidator.NoneValue | app/platform/data/validator.py:148-156 | None in a required field reports only "Field cannot be None"; in an optional field it fails only an enumeration that does not list None |
| DataValidator.Validator.constructor | app/platform/data/validator.py:50-51 | The validator reads schemas from the given registry |
| DataValidator.Validator.Validate | app/platform/data/validator.py:53-105 | The loops compute Check, which ValidExactly, MissingExact and UnknownKeyOnlyWarns characterise |
| DataValidator.Validator.ValidateField | app/platform/data/validator.py:107-139 | Computes CheckField |
| DataValidator.Validator.ApplyRules | app/platform/data/validator.py:132-137 | The rule loop computes RuleIssues over every rule, in order |
| DataValidator.Validator.ValidateType | app/platform/data/validator.py:141-247 | Computes CheckType, including the item loop for arrays |
| DataValidator.Validator.ValidateItems | app/platform/data/validator.py:209-221 | The item loop stops at the first item with an error and returns that error, or the error an item raises; this is CheckItems from the first item |
| DataFactory.DefaultValue | app/platform/data/factory.py:62-85 | A declared default is returned as is; otherwise an object or array field gets an empty dict or list |
| DataFactory.FillKeeps | app/platform/data/factory.py:45-49 | A value already in the instance is never replaced by a default |
| DataFactory.FillHas | app/platform/data/factory.py:45-52 | After filling, a key is present exactly when the instance had it or some field of that name declares a default |
| DataFactory.FillFirstDefault | app/platform/data/factory.py:46-49 | A key the instance lacks takes the default of the first field of that name that declares one |
| DataFactory.InstanceStartsFromData | app/platform/data/factory.py:38-42 | The instance before defaults reads exactly as the caller's data (empty when there is none) |
| DataFactory.CreatedKeepsData | app/platform/data/factory.py:26-60 | Every value the caller supplied is in the created instance unchanged |
| DataFactory.CreatedHasDefaults | app/platform/data/factory.py:45-52 | With fill_defaults, every field that declares a default is present in the created instance |
| DataFactory.CreatedIsValid | app/platform/data/factory.py:54-60 | With validate, a created instance comes from a registered schema and is one the validator accepts |
| DataFactory.Factory.constructor | app/platform/data/factory.py:18-24 | The factory uses the given registry and validator |
| DataFactory.Factory.Create | app/platform/data/factory.py:26-60 | Computes Created: "Schema X not found" for an unknown schema, else the filled instance, refused with "Validation failed" when validation finds errors |
| DataFactory.Factory.Fill | app/platform/data/factory.py:46-52 | The loop over the fields computes FillDefaults: a field whose name the instance lacks and which declares a default adds it, in field order |
| DataFactory.Builder.constructor | app/platform/data/factory.py:91-98 | A new builder holds no data |
| DataFactory.Builder.Set | app/platform/data/factory.py:100-103 | The field now holds the value and every other field is as it was |
| DataFactory.Builder.SetMany | app/platform/data/factory.py:105-108 | Every given key now holds its given value and every other key is as it was |
| DataFactory.Builder.Build | app/platform/data/factory.py:110-117 | Building is the factory's create on the gathered data |
| DataTransformer.Apply | app/platform/data/transformer.py:29-53 | A rule yields nothing, or one entry under its output key and only when its direction applies; an input field that is present is copied as it is when there is no transform function |
| DataTransformer.ConvertType | app/platform/data/transformer.py:126-174 | None stays None, and a value is kept unchanged when source and target types agree |
| DataTransformer.LastNamed | app/platform/data/transformer.py:106-107 | The field kept for a name is one of the fields and has that name; there is none exactly when no field has the name |
| DataTransformer.SingleWriter | app/platform/data/transformer.py:84-86 | A key written by only one rule holds what that rule produced |
| DataTransformer.TransformedKeys | app/platform/data/transformer.py:84-86 | Every key of the result is written by a rule whose direction applies |
| DataTransformer.RoundTrip | app/platform/data/transformer.py:29-53 | With bidirectional renaming rules and no functions, transforming forward then backward gives back every source field the data held |
| DataTransformer.ConvertedHasType | app/platform/data/transformer.py:140-172 | When the types differ, a converted value has the target type as the validator checks it (string, integer, float, boolean, array or object) |
| DataTransformer.BooleanConversion | app/platform/data/transformer.py:155-160 | A boolean target keeps booleans, reads strings as one of "true", "1", "yes" or "on" after lower-casing, and any other value by its truthiness |
| DataTransformer.BetweenKeys | app/platform/data/transformer.py:103-124 | Every key of a schema-to-schema result names a field of both schemas |
| DataTransformer.BetweenCopies | app/platform/data/transformer.py:113-115 | A field of the same type in both schemas is copied unchanged when the data holds it and left out when not |
| DataTransformer.Transformer.constructor | app/platform/data/transformer.py:59-61 | A new transformer has no transformations |
| DataTransformer.Transformer.RegisterTransformation | app/platform/data/transformer.py:63-69 | Registering a name again replaces its rules |
| DataTransformer.Transformer.Transform | app/platform/data/transformer.py:71-88 | An unknown name raises "Transformation X not found"; otherwise the loop computes the rules applied in order, later rules overwriting earlier ones (SingleWriter, TransformedKeys) |
| DataTransformer.Transformer.TransformBetweenSchemas | app/platform/data/transformer.py:90-124 | Either schema unknown raises "Source or target schema not found"; otherwise each target field name the source also has is copied or converted (BetweenKeys, BetweenCopies) |
| DataRelationship.SourceRegistered | app/platform/data/relationship.py:93-95 | Filing a new relationship under its source schema keeps the source index exact |
| DataRelationship.TargetRegistered | app/platform/data/relationship.py:97-99 | Filing a new relationship under its target schema keeps the target index exact |
| DataRelationship.RegisterConsistent | app/platform/data/relationship.py:60-101 | Registering a new id preserves the invariant: order lists each relationship once, ids match, both indexes are exact |
| DataRelationship.UnregisterConsistent | app/platform/data/relationship.py:198-215 | Unregistering a registered id preserves the invariant |
| DataRelationship.Lookup | app/platform/data/relationship.py:110 | One relationship per id, in the ids' order |
| DataRelationship.BucketRegistered | app/platform/data/relationship.py:109-110 | On an exact index every id of a bucket is registered, so the lookup cannot raise KeyError |
| DataRelationship.BySourceExact | app/platform/data/relationship.py:107-110 | `get_by_source(s)` returns only relationships whose source is s, and a registered relationship is returned if and only if its source is s |
| DataRelationship.BySourceOnly | app/platform/data/relationship.py:93-95 | An id filed under s is registered with source s |
| DataRelationship.BySourceFind | app/platform/data/relationship.py:93-95 | A registered relationship with source s is filed under s |
| DataRelationship.ByTargetExact | app/platform/data/relationship.py:112-115 | `get_by_target(t)` returns only relationships whose target is t, and a registered relationship is returned if and only if its target is t |
| DataRelationship.ByTargetOnly | app/platform/data/relationship.py:97-99 | An id filed under t is registered with target t |
| DataRelationship.ByTargetFind | app/platform/data/relationship.py:97-99 | A registered relationship with target t is filed under t |
| DataRelationship.ResolveStep | app/platform/data/relationship.py:132-159 | One relationship writes at most its own `<field>_resolved` key; every other key is unchanged |
| DataRelationship.ResolveAllKeeps | app/platform/data/relationship.py:127-161 | Resolution changes no key other than the `<field>_resolved` keys of the links |
| DataRelationship.ResolveAllGrows | app/platform/data/relationship.py:127-161 | Resolution removes no key of the data |
| DataRelationship.ResolveSingle | app/platform/data/relationship.py:141-159 | A one-to-one, many-to-one or reference link turns a truthy field value v into {"id": v} |
| DataRelationship.ResolveList | app/platform/data/relationship.py:146-151 | A one-to-many link turns a list into the list of {"id": item}, item by item |
| DataRelationship.PyEqSymmetric | app/platform/data/relationship.py:175 | Python value equality, as modelled, is symmetric |
| DataRelationship.CheckLink | app/platform/data/relationship.py:163-192 | The check passes exactly when no reason is given |
| DataRelationship.EqualityLinksSymmetric | app/platform/data/relationship.py:173-186 | One-to-one and many-to-one checks accept a pair exactly when the reversed link accepts the swapped pair |
| DataRelationship.CheckLinkAccepts | app/platform/data/relationship.py:170-192 | The check passes if and only if: the values are equal (one-to-one, many-to-one); the source is a list holding the target (one-to-many); both are truthy (reference); always (many-to-many) |
| DataRelationship.Manager.constructor | app/platform/data/relationship.py:55-58 | A new manager is empty and valid |
| DataRelationship.Manager.Register | app/platform/data/relationship.py:60-101 | A known id raises "Relationship X already registered" and changes nothing; otherwise the relationship is stored, appended and filed under its source and target; the invariant holds |
| DataRelationship.Manager.Get | app/platform/data/relationship.py:103-105 | Returns the relationship exactly when the id is registered |
| DataRelationship.Manager.GetBySource | app/platform/data/relationship.py:107-110 | Never hits a missing id; returns the bucket's relationships in order, each with source s, and every registered relationship with source s |
| DataRelationship.Manager.GetByTarget | app/platform/data/relationship.py:112-115 | Never hits a missing id; returns the bucket's relationships in order, each with target t, and every registered relationship with target t |
| DataRelationship.Manager.List | app/platform/data/relationship.py:194-196 | Returns every relationship in registration order |
| DataRelationship.Manager.Unregister | app/platform/data/relationship.py:198-215 | Returns whether the id was registered; if it was, it leaves the map, the order and both buckets; the invariant holds |
| DataRelationship.Manager.ResolveReferences | app/platform/data/relationship.py:117-161 | A depth of zero or less returns the data unchanged; otherwise the schema's outgoing relationships resolved in turn (ResolveAllKeeps, ResolveAllGrows, ResolveSingle, ResolveList) |
| WorkflowEngine.NodeIds | app/platform/workflow/workflow_engine.py:135 | The list of node ids has one entry per node, the id of the node at the same position |
| WorkflowEngine.NodeIdsDiffer | app/platform/workflow/workflow_engine.py:107 | Ids of nodes added at different positions of a workflow differ, whatever the node names |
| WorkflowEngine.GraphOf | app/platform/workflow/workflow_engine.py:153-165 | The compiled graph holds every node id and every edge; it has an entry point exactly when there is a node, and then it is the first node |
| WorkflowEngine.Workflow.constructor | app/platform/workflow/workflow_engine.py:39-51 | A new workflow has status created, no nodes, no edges, no graph, and equal creation and update times; it is well built |
| WorkflowEngine.Workflow.ToDict | app/platform/workflow/workflow_engine.py:53-64 | The dict has exactly the eight keys of `to_dict`, in order |
| WorkflowEngine.Workflow.AppendNode | app/platform/workflow/workflow_engine.py:118-119 | Appending the node of the next position keeps the workflow well built: node ids follow positions and edges join existing nodes |
| WorkflowEngine.Workflow.AppendEdge | app/platform/workflow/workflow_engine.py:139-140 | Appending an edge between two existing nodes keeps the workflow well built |
| WorkflowEngine.NodeIdsDistinct | app/platform/workflow/workflow_engine.py:107-118 | In a workflow built through add_node no two nodes share an id |
| WorkflowEngine.ToDictCounts | app/platform/workflow/workflow_engine.py:59-61 | `to_dict` reports as many nodes and edges as the workflow holds, and its status by name |
| WorkflowEngine.StatusRoundTrip | app/platform/workflow/workflow_engine.py:18-25 | The name written for a status reads back as that status, so statuses have distinct names |
| WorkflowEngine.RegisteredDistinct | app/platform/workflow/workflow_engine.py:81-90 | Two different ids are never filed to the same workflow object |
| WorkflowEngine.Engine.constructor | app/platform/workflow/workflow_engine.py:70-72 | A new engine holds no workflows |
| WorkflowEngine.Engine.CreateWorkflow | app/platform/workflow/workflow_engine.py:74-91 | A new empty workflow in status created, with the config or an empty one, is filed under the fresh id |
| WorkflowEngine.Engine.GetWorkflow | app/platform/workflow/workflow_engine.py:176-178 | Returns a workflow exactly when the id is filed, and then the one filed under it |
| WorkflowEngine.Engine.AddNode | app/platform/workflow/workflow_engine.py:93-121 | An unknown workflow raises "Workflow X not found" with no change; otherwise the node is appended with the id of its position, the workflow stays well built, and the id is returned |
| WorkflowEngine.Engine.AddEdge | app/platform/workflow/workflow_engine.py:123-140 | An unknown workflow raises "Workflow X not found"; the edge is added if and only if both endpoints are node ids of the workflow, otherwise "Node not found" with no change |
| WorkflowEngine.Engine.BuildGraph | app/platform/workflow/workflow_engine.py:142-174 | Returns true if and only if the library is available, the workflow exists and compiling succeeds; only then is the graph of all nodes and edges stored; nodes, edges and status never change |
| WorkflowEngine.Engine.ListWorkflows | app/platform/workflow/workflow_engine.py:180-182 | Returns every workflow, each once, in creation order |
| WorkflowEngine.Engine.DeleteWorkflow | app/platform/workflow/workflow_engine.py:184-189 | Returns true if and only if the id was filed; afterwards it is not filed and nothing else is removed |
| WorkflowEngine.ListedOnce | app/platform/workflow/workflow_engine.py:180-182 | Listing all workflows yields as many entries as there are workflows |
| WorkflowExecutor.Reply | app/platform/workflow/workflow_executor.py:47-63 | The reply says success exactly when the run succeeded, names the workflow, and carries the result on success or the error's text on failure, never both |
| WorkflowExecutor.Executor.constructor | app/platform/workflow/workflow_executor.py:14-16 | The executor works on the engine it is given |
| WorkflowExecutor.Executor.Execute | app/platform/workflow/workflow_executor.py:18-63 | An unknown workflow or one whose graph is not built is refused with no change; otherwise the run's reply is returned and the workflow ends completed on success or failed on error |
| WorkflowExecutor.Executor.Cancel | app/platform/workflow/workflow_executor.py:65-76 | Returns true if and only if the workflow exists and is running; then it becomes cancelled, otherwise nothing changes |
| WorkflowYaml.FromDict | app/platform/workflow/yaml_loader.py:15-24 | The id comes from `workflow_id` when truthy, else from `id`; absent optional keys take their defaults (empty description, nodes, edges and config, status created) |
| WorkflowYaml.EntriesRead | app/platform/workflow/yaml_loader.py:26-38 | Each key of the exported dict reads back the attribute it was written from, and no `id` key is written |
| WorkflowYaml.RoundTrip | app/platform/workflow/yaml_loader.py:15-38 | Rebuilding a definition from its exported dict gives it back if and only if its id is truthy or None |
| WorkflowYaml.Parse | app/platform/workflow/yaml_loader.py:47-49 | An item parses if and only if it is a dict, and then to the definition built from it |
| WorkflowYaml.SetIdField | app/platform/workflow/yaml_loader.py:55-58 | `workflow_id` is written with the key only when absent; every other key is untouched |
| WorkflowYaml.ObjectFormTakesKey | app/platform/workflow/yaml_loader.py:51-58 | In the object form an item with neither id key gets its non-empty key as workflow id |
| WorkflowYaml.ObjectFormKeepsId | app/platform/workflow/yaml_loader.py:51-53 | An item with only `id` keeps it: nothing is injected and the id is read from `id` |
| WorkflowYaml.ExportedDefinitionsLoadBack | app/platform/workflow/yaml_loader.py:26-38 | A document exported from definitions with truthy or None ids loads back as the same definitions, in order |
| McpServer.ToolDict | app/platform/mcp/mcp_server.py:31-39 | A tool's dict has exactly the keys name, description, type, parameters and metadata, in that order; the handler is not exported |
| McpServer.Registry.constructor | app/platform/mcp/mcp_server.py:45-46 | A new tool registry is empty |
| McpServer.Registry.Register | app/platform/mcp/mcp_server.py:48-71 | Registration fails exactly when the name is taken, with "Tool X already registered" and no change. Otherwise the returned tool has missing parameters and metadata replaced by empty dicts, is filed under its name and is appended to the registration order |
| McpServer.Registry.Get | app/platform/mcp/mcp_server.py:73-75 | A tool is returned exactly when its name is registered, and it is the registered one |
| McpServer.Registry.List | app/platform/mcp/mcp_server.py:77-79 | Every registered tool, in registration order; no registered tool is missing |
| McpServer.Registry.Unregister | app/platform/mcp/mcp_server.py:81-86 | The result is true exactly when the name was registered; afterwards the name is not registered and every other tool remains |
| McpServer.Iterated | app/platform/mcp/mcp_server.py:142-143 | Iterating the `required` entry fails (raises) exactly when it is not a list, string or dict; a list is walked item by item |
| McpServer.Absent | app/platform/mcp/mcp_server.py:144 | `param not in parameters` raises exactly for an unhashable name (a list or dict); a string name is absent exactly when no parameter has that key |
| McpServer.ValidFromExact | app/platform/mcp/mcp_server.py:143-146 | The remaining required names pass exactly when each is a string naming a given parameter |
| McpServer.ValidFromRaises | app/platform/mcp/mcp_server.py:143-145 | The check raises only at an unhashable name, and only when every name before it was given |
| McpServer.ValidParametersExact | app/platform/mcp/mcp_server.py:139-146 | For a tool whose `required` is a list of names, a call is accepted exactly when every required name is among its parameters |
| McpServer.NothingRequired | app/platform/mcp/mcp_server.py:142 | A tool without a `required` entry accepts every call |
| McpServer.ExecutedSucceeds | app/platform/mcp/mcp_server.py:96-137 | A successful reply happens only for a registered tool with a handler, all required parameters given and a handler that returns, and it carries the handler's result |
| McpServer.Server.constructor | app/platform/mcp/mcp_server.py:92-94 | A new server uses the given registry and is not running |
| McpServer.Server.ValidateParameters | app/platform/mcp/mcp_server.py:139-146 | The loop over the required names computes the check (ValidFromExact, ValidParametersExact): false at the first missing name, raising at an unhashable one |
| McpServer.Server.ExecuteTool | app/platform/mcp/mcp_server.py:96-137 | The reply is "Tool X not found", then "Tool X has no handler", then the raised check's text, then "Invalid parameters", then the handler's raised text, each with success false; otherwise success true with the handler's result (ExecutedSucceeds) |
| McpServer.Server.ListTools | app/platform/mcp/mcp_server.py:148-150 | The exported dict of every registered tool, in registration order |
| McpServer.Server.Start | app/platform/mcp/mcp_server.py:152-154 | After `start` the server is running |
| McpServer.Server.Stop | app/platform/mcp/mcp_server.py:156-158 | After `stop` the server is not running |

## Left out

- File and text I/O (`load_from_file`, `load_from_string`, `export_to_yaml`, `import_from_yaml_file`, `import_from_yaml_string`, `export_to_yaml_file`, `DataSchema.from_json`, `from_yaml`): the model starts from the parsed YAML value and ends at the exported value. YAML and JSON text are not modelled.
- Timestamps are integers read from a clock parameter. ISO-8601 text is neither rendered nor parsed, so a loader reads a timestamp field as an integer.
- Loader field types: a value of the wrong type (for example a number where a name is expected) is an error in the model. Python would store it unchecked.
- `str.lower()` is modelled on ASCII letters only. Case-insensitive search over other scripts is not captured.
- Floating-point numbers are exact reals. Rounding is not modelled.
- Concurrency: every coroutine runs to completion with no interleaving. Heartbeat task scheduling (`_heartbeat_loop` as a task, `start_heartbeat_monitoring`, `stop_heartbeat_monitoring`) is left out; one pass of the loop is modelled.
- The module-level singletons (`get_registry`, `get_manager`, `get_service` and the rest) are left out: each only constructs an object lazily.
- Logging and `print` calls are left out.
- Tag unions: the source builds the candidate list with `list(set(...))`, so its order is hash order. The model uses first-seen order. The membership lemmas are exact, but the order of a tag-filtered listing is one admissible order, not the one CPython produces.
- The services' `_get_all_items` and `get_all` are the registry's `list` followed by a caller-supplied filter, so they are not modelled separately. The same holds for `get_by_id`, `get_plugin`, `list_plugins`, `get_tenant` and `get_tenant_by_domain`, which only delegate to the registry.
- `knowledge_registry.py:11` annotates the module-level `_global_registry` with `KnowledgeBaseRegistry` before that class is defined. Evaluating this annotation raises NameError when the module is imported. The model treats the module as importable.
- `KnowledgeBase.search` is left out: it calls the embedding service and the vector store. Indexing takes their outcomes as parameters.
- Knowledge.KnowledgeBase.constructor: requires `0 <= chunk_overlap < chunk_size`, which the source does not check. With an overlap of at least the chunk size, the next start is not past the current one, so the loop does not advance. With a negative overlap, the next chunk starts past the end of the current one, so characters are skipped and the chunks do not tile the text, which is the property the model proves about chunking.
- `get_tenant_statistics` is left out: it counts database documents.
- Query stamping (`get_tenant_data`, `create_tenant_data`, `update_tenant_data`, `delete_tenant_data`) is modelled on values. The model does not capture that the caller's dict is mutated in place, and the database calls themselves are not modelled.
- Login (`auth_db.py`): password checking, the user store, token signing and decoding are parameters. `refresh_token`, `logout`, `me`, `update_me`, `change_password`, `reset_password`, `create_user` and `list_users` are left out: they are user-store I/O.
- Providers: `load_from_database`, the manager's `list` and `to_llm_provider` are left out, because they are database queries and pydantic conversion. The database is a map from provider name to record.
- ProviderManager.Manager.Update: takes the name from the record, the way `import_batch` calls `update`. An update of one name with a record carrying another name is not modelled.
- Plugins: the `config_schema`, `config` and `metadata` dicts are not modelled. Both managers' `_load_plugin_module` (importlib) is an outcome parameter, and so are the plugin hooks.
- Agents: the agent object, its config and metrics, and `AgentInstance.to_dict` are not modelled. The factory function's outcome is a parameter.
- Data sources: adapter classes, their construction and `is_available()` are parameters. The five market-data methods (`get_stock_list` … `get_news`) share one fallback, modelled once for any payload type.
- `check_all_availability` is left out: it calls `check_availability` for each enabled source and returns nothing.
- `register_source` in `data_source_service.py:138-166` is left out. It makes the same wrong-signature `register(source)` call as the import, so it always raises; the finding on line 85 covers that call.
- `DataGenerator` (`factory.py:120-209`) is left out: it produces random data.
- Regular-expression matching in the validator's `pattern` rule is a parameter, and so is `str()` of a value where a message interpolates it.
- Workflows: the graph library (`langgraph`) is reduced to two parameters, whether it is installed and whether compilation succeeds. Running a graph is an outcome parameter, and the workflow id is the caller's fresh uuid.
- MCP: a tool handler is an identity together with an outcome of invoking it. Whether a handler is a coroutine or a plain function is not distinguished. `get_mcp_server` is left out.
- TenantLoader.ExportGet: the tenant record leaves out the `config` and `metadata` dicts of `TenantMetadata` (tenant_registry.py:42-43), so "no other key is present" is about the modelled fields. Python's `to_dict` also exports those two keys.
- TenantLoader.ExportThenLoad: the round trip covers the modelled fields only. `config` and `metadata` are not in the record, so the model does not promise that they load back.
- AgentLoader.ExportGet: the agent record leaves out the `requirements` and `config_schema` dicts (agent_registry.py:42-43), which `to_dict` exports. The factory callable is not exported by the source either.
- AgentLoader.ExportThenLoad: the round trip covers the modelled fields only, without `requirements` and `config_schema`.
- KnowledgeLoader.ExportGet: the knowledge-base record leaves out the `metadata` dict (knowledge_config.py:32), which `to_dict` exports.
- KnowledgeLoader.ExportThenLoad: the round trip covers the modelled fields only, without `metadata`.
- Knowledge.ChunkMetadata: a document's `metadata` is modelled as a map from strings to strings, not as Python's `Dict[str, Any]`. Non-string metadata values are not captured.
- BusinessModel.ExportGet: the business-plugin record leaves out `agents`, `tools`, `workflows`, `data_models` and `plugin_config` (business_plugin.py:79-96), which `to_dict` exports. These are lists of nested configuration records that no modelled operation reads.
- BusinessModel.ExportThenLoad: the round trip covers the modelled fields only, without those five.
- DataRelationship.CheckLink: equality is PyEq. It compares bool, int and float by value and lists element by element, but compares dicts as ordered entry lists with structural equality on the values. Python's dict `==` ignores key order and compares values with `==`. So `{"a": 1, "b": 2}` against `{"b": 2, "a": 1}`, or `{"a": 1}` against `{"a": 1.0}`, are equal in Python and refused by the model.
- DataRelationship.CheckLinkAccepts: "the values are equal" is the PyEq comparison described under CheckLink, with the same gap for dicts.
- DataValidator.CheckType: the enum membership test is PyIn, built on PyEq. A dict value that equals an allowed dict only up to key order, or up to int/float, is reported as not allowed.
- DataValidator.Check: the source iterates `required_fields - provided_fields` (validator.py:63-67) and joins `provided_fields - schema_field_names` (validator.py:96-99). Both are Python sets, so the order of the missing-field errors and of the names in the "Unknown fields" warning is hash order. The model lists missing names in schema field order and unknown names in data key order. Which names appear is exact (MissingExact, UnknownExact); their order is one admissible order, not the one CPython produces. The same holds for DataValidator.Validator.Validate.
- DataSourceService.UpdateSource: a value of the wrong type for a field (for example a string priority) is refused with nothing changed. Python assigns it unchecked. The same refusal holds in DataSourceService.UpdateAsWritten, which then keeps the record as it was.
- DataSourceService.MergedConfig: any "config" that is not a dict is refused. Python's `dict.update` also accepts a list of key-value pairs, including the empty list.
- Error messages: the login and `get_current_user` refusals are English renderings, with the status code as a "401: " prefix, of the source's Chinese `HTTPException` details. A missing required key gives "KeyError: k", where Python's `str()` of the KeyError is the quoted key. An enum given a value that is not a string gives "not a valid Y" without Python's `repr` of the value.
- BusinessModel.ParseCapabilities: a capabilities entry that is not a string is refused, because the record holds capabilities only. Python keeps such an entry as it is. A capabilities value that is not a list is refused; Python iterates any iterable.
- BusinessModel.Misfit: an unknown keyword argument is reported with Python's wording. A missing field is reported as "missing required argument: 'k'", not with Python's count of missing positional arguments.
- ProviderManager.Manager.ImportBatch: the result is the import services' shared `ImportResult`, whose `total` (the number of items) the import_batch dict does not have. The same holds for DataSourceService.ImportSources. The other four keys are exact.
- DataSourceManager.Manager.GetAdapter: `is_available()` is modelled as never raising. In `get_adapter` a raise there leaves the adapter cached, sets the source to error with the message and returns None. DataSourceManager.Manager.GetAvailableAdapters calls `is_available()` a second time, and a raise there propagates. Neither path is modelled.
- Knowledge.ChunksAsWritten: the non-terminating loop as written is bounded by a fuel parameter. `None` means the loop had not finished after that many iterations.

## Findings

| source | as written | input that shows it | evidently intended | confidence | as-written member | corrected member |
|---|---|---|---|---|---|---|
| app/platform/tenants/tenant_service.py:45-46 | An update first unregisters the existing tenant and then registers the new record. If registration raises, the old tenant is already gone. | Registry holds tenant a with domain x.com and tenant b with domain y.com. Import a with domain y.com and update_existing true. | A refused update leaves the old tenant registered. | not executed | TenantService.ImportItemAsWritten | TenantService.ImportItem, TenantService.ImportItems |
| app/platform/data_sources/data_source_service.py:64-78 | An update overwrites the stored record's fields in place, including `supported_markets`, but does not re-index the market buckets. | Source s listed under market "us" only; re-import s with markets ["us", "hk"] and update_existing true; `list(market="hk")` misses s. | The update re-indexes the record, so listing by market stays exact. | not executed | DataSourceService.AsWrittenUpdateMissesMarket, DataSourceService.StaleMarketIndex | DataSourceService.ImportItem, DataSourceService.ImportSources |
| app/platform/data_sources/data_source_service.py:85 | A new source is registered with `register(source)`, but the registry's `register` takes keyword fields, so the call raises. | Any new source, on an empty registry. | New sources are registered and listed in imported. | not executed | DataSourceService.AsWrittenRegistersNothing | DataSourceService.ImportSources |
| app/platform/agents/agent_manager.py:203-211 | The loop refreshes `last_heartbeat` to now and then measures the time since it, so the 300-second timeout never fires. | A running instance whose last heartbeat is 1000 seconds old stays Running. | An instance silent for more than 300 seconds is marked Error. | not executed | AgentManager.HeartbeatTimeoutNeverFires, AgentManager.StaleInstanceKeepsRunning | AgentManager.Beat, AgentManager.BeatLeavesNoStaleRunner, AgentManager.Manager.CheckHeartbeats |
| app/platform/knowledge/knowledge_base.py:196 | The next chunk starts at `end - chunk_overlap` even after a chunk has reached the end of the text, so the loop never stops. | Content "abc", chunk_size 1000, chunk_overlap 200 (the defaults). | Stop once a chunk reaches the end; the chunks then tile the text. | not executed | Knowledge.OverlapNeverFinishes, Knowledge.ChunksAsWritten | Knowledge.ChunksFrom, Knowledge.ChunksTile, Knowledge.KnowledgeBase.ChunkDocument |
| app/platform/tenants/yaml_loader.py:52-53 | `to_dict` (tenant_registry.py:67) writes `"expires_at": None`, and the loader calls `fromisoformat` on `expires_at` whenever the key is present. | Export then import any tenant without an expiry date, such as a default one. | A present null `expires_at` loads as no expiry, so an exported tenant loads back. | not executed | TenantLoader.ParseTenantAsWritten, TenantLoader.ExportedTenantWithoutExpiryFailsToLoad | TenantLoader.ParseTenant, TenantLoader.ExportThenLoad |
| app/platform/data_sources/data_source_service.py:189-190 | `update_source` assigns the fields of the registered object one by one, including `supported_markets`, and never re-files it in the market index. A raise at `config.update` (line 188) leaves the fields assigned before it written. | Source s listed under "us"; `update_source(s, {"supported_markets": ["hk"]})` leaves `list(market="hk")` without s. `update_source(s, {"display_name": "X", "config": None})` raises with the display name already "X". | An update re-files the source under its new markets and is all-or-nothing. | not executed | DataSourceService.UpdateAsWritten, DataSourceService.AsWrittenUpdateSourceMissesMarket, DataSourceService.AsWrittenConfigRaiseKeepsName | DataSourceService.UpdateSource |
