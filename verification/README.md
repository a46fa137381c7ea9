# OpenShift cluster resource: configuration translators and lifecycle rules

A Dafny model of the core of the `azurerm_openshift_cluster` resource of the
Terraform AzureRM provider. It covers the configuration-translation layer and
two small lifecycle rules. The translation layer expands declared
configuration blocks into typed API profiles and flattens response profiles
back into configuration maps. The two rules are the pre-create existence
guard and "a read that finds nothing drops the resource from state". The
pool-name validators are modelled too.

The repository holds two generations of the resource, and each gets its own
model:

- **Older**, `azurerm/resource_arm_openshift_cluster.go` (2019-02-01 API
  shapes). It is modelled in `LegacyCluster` (expand and flatten),
  `LegacyRoundTrip` (round-trip and ordering lemmas) and `LegacyLifecycle`
  (create/update planning and read). Its agent expand always returns a list.
  Its identity-provider resolver picks the AAD variant or falls back to the
  base variant.
- **Newer**, `azurerm/internal/services/containers/` (2020-02-01 API shapes).
  It is modelled in `ContainersApi`, `ContainersNodePool` and
  `ContainersCluster`. Its translators return nil for an empty block list and
  omit optional strings that are empty. Its auth translator emits a single
  hard-wired AAD provider.

Shared modules:

- `Wrappers`: `Option` stands for a Go pointer. `Result` stands for a
  `(value, error)` return.
- `FieldCodec`: the omit-when-empty rule for optional keys, and Go's
  wrapping `int32(x)` conversion.
- `PoolNames`: the pattern `^[a-z]{1}[a-z0-9]{0,11}$`, written as a small
  backtracking matcher over bounded character-class repetitions. It is proved
  equal to a plain definition of a valid name.
- `IdentityProviders`: the provider union (base or AAD).
- `Remote`: the result of a `Get` call, the existence guard, and adopting the
  identifier of a freshly created cluster.

Go's configuration maps become records. A type assertion such as
`config["x"].(string)` panics on a missing key, so a key that is always
asserted becomes a plain field. A key the code tests for presence becomes an
`Option` field. The AAD keys of the older provider map are asserted only for
the AAD kind, so they are `Option` fields with a precondition (`ProviderReadable`).
Nil versus empty lists are `Option<seq<T>>`. Enum-typed API fields are strings
whose unset value is `""`, as in Go.

Remote calls (`Get`, `CreateOrUpdate`, polling) are not modelled. The outcome
of a `Get` is an input, a `Remote.Response`. The read handler receives the
lookup as a function `get(resourceGroup, name)`, so its contract shows which
name it looks the cluster up by. The planning functions return the
request the handler would send, or the error it would return first.

The discriminator value `"AADIdentityProvider"` (`IdentityProviders.AadKind`)
is the one the acceptance-test configuration declares
(`azurerm/resource_arm_openshift_cluster_test.go:105`). The base variant's
value `"OpenShiftManagedClusterBaseIdentityProvider"` is the 2019-02-01 SDK
constant. The SDK is not part of this model.

### Behaviour of the code that the model keeps

- No identity-provider flatten exists in the code. The older agent flatten
  never writes `role`. The older expands drop `subnet_cidr` and
  `peer_vnet_id` even though the test configuration declares them. The
  round-trip lemmas state what the code actually preserves.
- The older master and agent counts go through Go's `int32(...)`, which wraps
  around rather than rejecting out-of-range counts. `FieldCodec.ToInt32`
  models the wrap-around, and the expand contracts state the count as
  `ToInt32` of the declared count. The conversion is lossless exactly on the
  int32 range. Nothing in the older handler bounds the master count. The
  schema's 1–100 bound (`azurerm/resource_arm_openshift_cluster.go:77-82`)
  applies only to `agent_pool_profile.count`.
- The older handler's schema (`azurerm/resource_arm_openshift_cluster.go:28-470`)
  is a Kubernetes-cluster schema. It declares none of `openshift_version`,
  `master_pool_profile`, `auth_profile`, `network_profile.vnet_cidr` or
  `agent_pool_profile.role`. `d.Get` returns nil for an undeclared key, so
  the type assertions at :497, :626, :651, :716 and :742 would panic. The
  model assumes these keys are present and well typed. It does so through
  its record types and through the `ProviderReadable`/`AuthReadable`
  preconditions, not through anything the schema enforces.
- The older read handler takes the cluster name from the `managedClusters`
  path segment of the stored identifier
  (`azurerm/resource_arm_openshift_cluster.go:557`). That is the
  Kubernetes-cluster key. An identifier of this resource type carries an
  `openShiftManagedClusters` segment instead, so the lookup name is Go's zero
  value `""`, and the `Get` at :558 does not look up the stored cluster.
  `LegacyLifecycle.LookupName` keeps this behaviour, and
  `LegacyLifecycle.OpenShiftIdLookedUpByEmptyName` shows the empty name.
  A not-found answer to that lookup clears the identifier whether or not the
  cluster still exists. The read's contract speaks of a not-found response,
  not of a removed cluster.
- The newer create handler passes the undeclared identifiers `resGroup` and
  `name` to `Get` and to its messages. It also reads the key
  `"master_pool_profile "`, with a trailing space. `ContainersCluster.PlanCreate`
  models the evident intent: the declared resource group and name, and the key
  without the space.
- The newer auth translator writes the literal kind `"KindAADIdentityProvider"`,
  not the AAD constant's value. The model keeps that literal
  (`ContainersCluster.AadProviderKindLiteral`).
- The newer expand functions return an error type but never return an error.
  Their contracts state `r.Success?`, so the create handler's abort-on-expand-error
  branches (`azurerm/internal/services/containers/resource_arm_openshift_cluster.go:52-78`)
  are unreachable. `PlanCreate` therefore has no such branches. The guard is
  the only way create stops before the remote call, and its contract says so.

## Model

| member | source | states |
|---|---|---|
| `PoolNames.PatternMatchesValidNames` | azurerm/helpers/validate/openshift.go:11-12 | The anchored pattern `[a-z]{1}[a-z0-9]{0,11}` matches a name iff it has 1–12 characters, starts with a lowercase letter and uses only `a-z0-9` |
| `PoolNames.OpenShiftMasterPoolName` | azurerm/helpers/validate/openshift.go:8-17 | Warnings are always empty. There is at most one error. There is no error iff the name is valid. The error carries the key and the rejected value |
| `PoolNames.OpenShiftAgentPoolName` | azurerm/helpers/validate/openshift.go:19-28 | Same contract as the master validator |
| `PoolNames.MasterAndAgentAgree` | azurerm/helpers/validate/openshift.go:8-28 | The master and agent validators give identical results on every input |
| `PoolNames.EmptyNameRejected` | azurerm/helpers/validate/openshift.go:11 | The empty string is rejected |
| `PoolNames.LongNameRejected` | azurerm/helpers/validate/openshift.go:11 | Any name of 13 or more characters is rejected |
| `PoolNames.TwelveCharNameAccepted` | azurerm/helpers/validate/openshift.go:11 | A well-formed 12-character name is accepted |
| `PoolNames.LeadingDigitRejected` | azurerm/helpers/validate/openshift.go:11 | A name starting with a digit is rejected, whatever follows |
| `PoolNames.ForeignCharacterRejected` | azurerm/helpers/validate/openshift.go:11-14 | A character outside `a-z0-9` (uppercase, `-`, `_`, …) anywhere rejects the name in both validators |
| `FieldCodec.OmitEmpty` | azurerm/internal/services/containers/openshift_nodepool.go:35-38 | An optional string key reaches the request iff it is present and non-empty, and then unchanged |
| `FieldCodec.EnumOrUnset` | azurerm/internal/services/containers/openshift_nodepool.go:30-33 | An optional enum key is set (non-empty) iff present and non-empty, and then equals the declared value |
| `FieldCodec.OmitEmptyIdempotent` | azurerm/internal/services/containers/openshift_nodepool.go:30-38 | Applying the omit-when-empty rule to its own output changes nothing, for pointer and enum fields alike |
| `FieldCodec.ToInt32` | azurerm/resource_arm_openshift_cluster.go:635 | `int32(x)` is congruent to `x` modulo 2^32 and equals `x` when `x` fits in int32 |
| `FieldCodec.ToInt32Lossless` | azurerm/resource_arm_openshift_cluster.go:713 | The conversion returns `x` exactly when `x` lies in the int32 range |
| `Remote.ExistenceGuard` | azurerm/resource_arm_openshift_cluster.go:484-494 | When disabled it always proceeds. When enabled, a lookup error that is not a not-found aborts with that error. Otherwise a non-empty existing id aborts with an import-as-exists error for that id. Otherwise it proceeds, and it proceeds only then |
| `Remote.AdoptCreatedId` | azurerm/resource_arm_openshift_cluster.go:532-542 | After creation the read-back id becomes the resource id. A read error is a retrieve error carrying the cause, and a missing id is the missing-id error |
| `LegacyCluster.ExpandMasterPoolProfile` | azurerm/resource_arm_openshift_cluster.go:625-648 | Nil iff no blocks. Otherwise the first block's name, vm_size and os_type are copied. The count is Go's wrapping `int32` conversion of the declared count, so it is the declared count itself when that fits in int32. No subnet is sent |
| `LegacyCluster.ExpandIdentityProvider` | azurerm/resource_arm_openshift_cluster.go:683-704 | Total. The AAD variant comes out iff the kind is the AAD constant, with client id, secret and group id from config and the tenant from the caller. Any other kind gives the base variant carrying only its discriminator |
| `LegacyCluster.ExpandIdentityProviders` | azurerm/resource_arm_openshift_cluster.go:658-674 | One named provider per declared provider, in order, with the name copied and the provider resolved |
| `LegacyCluster.ExpandAuthProfile` | azurerm/resource_arm_openshift_cluster.go:650-681 | Nil iff no blocks. Otherwise the first block's providers, one per entry, in order, with names copied |
| `LegacyCluster.ExpandAgentPoolProfiles` | azurerm/resource_arm_openshift_cluster.go:706-731 | Always a list, so no blocks give an empty list. Same length and order as the input. Name, vm_size, os_type and role are copied. The count is the wrapping `int32` conversion, which is lossless in range. No subnet is sent |
| `LegacyCluster.ExpandNetworkProfile` | azurerm/resource_arm_openshift_cluster.go:733-750 | Nil iff no blocks. Otherwise `VnetCidr` is always set from `vnet_cidr` and no peer id is sent |
| `LegacyCluster.FlattenAgentPoolProfile` | azurerm/resource_arm_openshift_cluster.go:759-784 | `count` and `name` keys appear iff non-nil. `vm_size` and `os_type` keys appear iff non-empty. `fqdn` appears iff the parent fqdn is non-nil. Each value is the profile's own. `role` and any other key never appear |
| `LegacyCluster.FlattenAgentPoolList` | azurerm/resource_arm_openshift_cluster.go:757-786 | The i-th map is the flattening of the i-th profile |
| `LegacyCluster.FlattenAgentPoolProfiles` | azurerm/resource_arm_openshift_cluster.go:752-787 | Nil gives an empty list. Otherwise there is one map per profile, in order |
| `LegacyCluster.FlattenNetworkProfile` | azurerm/resource_arm_openshift_cluster.go:789-805 | Nil gives an empty list. Otherwise exactly one map whose `vnet_cidr` and `peer_vnet_id` keys appear iff non-nil, with no other keys |
| `LegacyRoundTrip.AgentPoolsRoundTrip` | azurerm/resource_arm_openshift_cluster.go:706-787 | Flatten after expand gives one map per declared block, in order. Each map keeps the declared name and the `int32`-converted count, which is the declared count when in range. It has vm_size and os_type iff they were declared non-empty, and never a role |
| `LegacyRoundTrip.ExpandAgentPoolsConcat` | azurerm/resource_arm_openshift_cluster.go:710-728 | Agent expand distributes over concatenation: order is preserved and blocks are independent |
| `LegacyRoundTrip.FlattenAgentPoolsConcat` | azurerm/resource_arm_openshift_cluster.go:759-784 | Agent flatten distributes over concatenation: the response order is kept, not re-sorted |
| `LegacyRoundTrip.NetworkRoundTrip` | azurerm/resource_arm_openshift_cluster.go:733-805 | Flatten after expand is empty for no blocks, and otherwise exactly `[{vnet_cidr: declared value}]` |
| `LegacyRoundTrip.AuthProvidersUseCallerTenant` | azurerm/resource_arm_openshift_cluster.go:661-695 | Every AAD provider in an expanded list carries the caller's tenant. The number of AAD providers equals the number of declared AAD kinds |
| `LegacyRoundTrip.ProviderTenantIsolated` | azurerm/resource_arm_openshift_cluster.go:683-704 | Changing the caller's tenant changes only the AAD variant's tenant field and leaves the base variant unchanged |
| `LegacyRoundTrip.FirstBlockOnly` | azurerm/resource_arm_openshift_cluster.go:625-750 | The master, network and auth expands ignore every block after the first |
| `LegacyLifecycle.PlanCreateUpdate` | azurerm/resource_arm_openshift_cluster.go:474-520 | A request is built iff the guard (import required and resource new) lets the create proceed, and otherwise the guard's error is returned. The request carries the name, location, version and fqdn. Its master, agent, network and auth profiles are exactly the expansions of the declared blocks: always an agent list of the declared length, nil profiles exactly for absent blocks, and the caller's tenant in every AAD provider |
| `LegacyLifecycle.LookupName` | azurerm/resource_arm_openshift_cluster.go:556-557 | The lookup name is the `managedClusters` path segment when present, and `""` otherwise |
| `LegacyLifecycle.OpenShiftIdLookedUpByEmptyName` | azurerm/resource_arm_openshift_cluster.go:557 | An id whose path holds only an `openShiftManagedClusters` segment is looked up by the empty name |
| `LegacyLifecycle.Read` | azurerm/resource_arm_openshift_cluster.go:547-599 | The lookup is made with the parsed resource group and `LookupName`. A not-found response to it clears the id and returns no error, and it is the only way the id is cleared. Other lookup errors and bad ids return an error and keep the id. On success the observed state holds the response's name, location and resource group. When properties are present it also holds their fqdn and openshift version, the agent pools flattened with the parent fqdn, and the flattened network profile |
| `LegacyLifecycle.SecondCreateRefused` | azurerm/resource_arm_openshift_cluster.go:484-542 | Once a create has been adopted under a non-empty id, a guarded re-create that looks the cluster up again is refused with an import-as-exists error for that id |
| `LegacyLifecycle.ReadOfOpenShiftIdIgnoresClusterName` | azurerm/resource_arm_openshift_cluster.go:556-565 | For an id without a `managedClusters` segment, the read's outcome depends only on the remote answer for the empty name |
| `LegacyLifecycle.RecreateAfterRemoval` | azurerm/resource_arm_openshift_cluster.go:484-565 | A read whose not-found response clears the id licenses a guarded re-create only when the create's own lookup, by the declared group and name, gets the same response without an id |
| `LegacyLifecycle.AcceptanceConfigurationRequest` | azurerm/resource_arm_openshift_cluster_test.go:93-134 | With no existing cluster, the test configuration yields master count 1, a "Compute" agent pool, the AAD provider with the caller's tenant, and a network profile holding only `vnet_cidr` |
| `ContainersNodePool.ExpandAgentPoolProfile` | azurerm/internal/services/containers/openshift_nodepool.go:16-38 | Name, node count, vm_size and role are copied verbatim. os_type and subnet_cidr are set iff present and non-empty, and then copied |
| `ContainersNodePool.ExpandAgentPoolList` | azurerm/internal/services/containers/openshift_nodepool.go:13-41 | One profile per block, in input order, each expanded from its own block |
| `ContainersNodePool.ExpandAgentPoolProfiles` | azurerm/internal/services/containers/openshift_nodepool.go:8-44 | Never an error. Nil iff no blocks, never an empty list. Otherwise one profile per block, in order |
| `ContainersNodePool.ExpandAgentPoolListConcat` | azurerm/internal/services/containers/openshift_nodepool.go:15-41 | Agent expand distributes over concatenation, so order is preserved |
| `ContainersNodePool.ExpandMasterPoolProfile` | azurerm/internal/services/containers/openshift_nodepool.go:46-74 | Never an error. Nil iff no blocks. Otherwise the first block's name, node count and vm_size are copied, and subnet_cidr and os_type are set iff present and non-empty |
| `ContainersNodePool.AgentPoolReExpands` | azurerm/internal/services/containers/openshift_nodepool.go:18-38 | Declaring back the fields an agent profile holds, with unset fields given as empty or missing keys, expands to the same profile |
| `ContainersNodePool.MasterPoolReExpands` | azurerm/internal/services/containers/openshift_nodepool.go:53-71 | Declaring back the fields a master profile holds expands to the same profile |
| `ContainersNodePool.MasterIgnoresLaterBlocks` | azurerm/internal/services/containers/openshift_nodepool.go:51 | Blocks after the first do not affect the master profile |
| `ContainersCluster.ExpandNetworkProfile` | azurerm/internal/services/containers/resource_arm_openshift_cluster.go:118-142 | Never an error. Nil iff no blocks, and otherwise always a profile. Each of vnet_cidr, peer_vnet_id and vnet_id is set iff present and non-empty, and then copied |
| `ContainersCluster.NetworkReExpands` | azurerm/internal/services/containers/resource_arm_openshift_cluster.go:126-139 | Declaring back the keys a network profile holds expands to the same profile |
| `ContainersCluster.ExpandDefaultRouterProfile` | azurerm/internal/services/containers/resource_arm_openshift_cluster.go:144-159 | Never an error. Nil iff no blocks. Otherwise a one-element list named after the first block |
| `ContainersCluster.RouterIgnoresLaterBlocks` | azurerm/internal/services/containers/resource_arm_openshift_cluster.go:149 | Router blocks after the first are ignored |
| `ContainersCluster.ExpandAuthProfileIdentityProviders` | azurerm/internal/services/containers/resource_arm_openshift_cluster.go:176-197 | Exactly one provider, named "AAD". It is the AAD variant with client id, secret and admin group copied, the tenant from the caller, and kind `"KindAADIdentityProvider"` |
| `ContainersCluster.ExpandAuthProfile` | azurerm/internal/services/containers/resource_arm_openshift_cluster.go:161-174 | Never an error. Nil iff no blocks. Otherwise exactly that single AAD provider, built from the first block |
| `ContainersCluster.AuthTenantIsolated` | azurerm/internal/services/containers/resource_arm_openshift_cluster.go:176-187 | Expanding one auth block for two tenants gives providers that differ only in the tenant, which is the caller's each time |
| `ContainersCluster.PlanCreate` | azurerm/internal/services/containers/resource_arm_openshift_cluster.go:23-93 | A request is built iff the guard (import checking on) lets the create proceed, and otherwise the guard's error is returned. The master, agent, network, router and auth profiles are exactly the expansions of the declared blocks. Each is nil exactly when its blocks are absent. The agent list has the declared length. The auth profile holds the single AAD provider with the caller's tenant |
| `ContainersCluster.SecondCreateRefused` | azurerm/internal/services/containers/resource_arm_openshift_cluster.go:34-113 | Once a create has been adopted under a non-empty id, a re-create with import checking on that looks the cluster up again is refused with an import-as-exists error for that id |

## Left out

- Remote calls and polling are not modelled: `CreateOrUpdate`, `Delete`, `Get` and `WaitForCompletionRef`, with their contexts and timeouts. They are network I/O. A `Get` outcome is an input (`Remote.Response`), or a function producing one for the read handler. The whole delete handler is left out for the same reason.
- The schema declarations (`azurerm/resource_arm_openshift_cluster.go:17-472`) are SDK metadata and are not modelled.
- `LegacyLifecycle.PlanCreateUpdate`: the older handler as written cannot get past `azurerm/resource_arm_openshift_cluster.go:497`, because its schema does not declare `openshift_version` and the type assertion on the nil value panics. The same holds for the other undeclared keys read by its expand functions. The model takes every key it reads to be present and describes the handler as if its schema declared them.
- Foreign helpers are not modelled: `parseAzureResourceID` (its result, a resource group and a path map, is an input to `Read`), `azure.NormalizeLocation` (locations pass through unchanged), `expandTags`/`flattenAndSetTags` (tags are omitted), `utils.ResponseWasNotFound` (a `notFound` flag on the response), `tf.ImportAsExistsError` (the `ImportAsExists` error value), and `features.ShouldResourcesBeImported` / `requireResourcesToBeImported` (boolean inputs).
- Error and log message text is not modelled. Errors are datatype values carrying the same data.
- `LegacyLifecycle.Read`: failures of the individual `d.Set` calls (`azurerm/resource_arm_openshift_cluster.go:585-593`) are not modelled, because `d.Set` belongs to the configuration store.
- `ContainersCluster.PlanCreate`: stops at the request. After `CreateOrUpdate`, the newer handler calls the Kubernetes-cluster read function, which is not part of this model. The shared read-back rule is `Remote.AdoptCreatedId`.
- `azurerm/internal/services/containers/client.go` is only a struct of SDK clients.
- The acceptance-test files run against live Azure and are not modelled, apart from the configuration used by `LegacyLifecycle.AcceptanceConfigurationRequest`. The recovery-services data-source test belongs to another resource.
