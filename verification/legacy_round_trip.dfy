/** Properties relating the older resource's expand and flatten translators. */
module LegacyRoundTrip {
  import opened Wrappers
  import opened FieldCodec
  import opened IdentityProviders
  import opened LegacyCluster

  /**
    Flattening the expanded agent pools gives back one map per declared block,
    in order, with the declared name and the count after its int32
    conversion (the declared count itself when it fits), and `vm_size`/`os_type` exactly when they were declared non-empty.
    The role is not written back.
   */
  lemma AgentPoolsRoundTrip(configs: seq<AgentPoolConfig>, fqdn: Option<string>)
    ensures var r := FlattenAgentPoolProfiles(Some(ExpandAgentPoolProfiles(configs)), fqdn);
      && |r| == |configs|
      && forall i | 0 <= i < |configs| ::
           && r[i]["name"] == StringValue(configs[i].name)
           && r[i]["count"] == IntValue(ToInt32(configs[i].count) as int)
           && (FitsInt32(configs[i].count) ==> r[i]["count"] == IntValue(configs[i].count))
           && ("vm_size" in r[i] <==> configs[i].vmSize != "")
           && (configs[i].vmSize != "" ==> r[i]["vm_size"] == StringValue(configs[i].vmSize))
           && ("os_type" in r[i] <==> configs[i].osType != "")
           && (configs[i].osType != "" ==> r[i]["os_type"] == StringValue(configs[i].osType))
           && "role" !in r[i]
  {
  }

  /** The agent expand works block by block, so it distributes over concatenation and keeps order. */
  lemma {:induction false} ExpandAgentPoolsConcat(a: seq<AgentPoolConfig>, b: seq<AgentPoolConfig>)
    ensures ExpandAgentPoolProfiles(a + b) == ExpandAgentPoolProfiles(a) + ExpandAgentPoolProfiles(b)
    decreases |a|
  {
    if a == [] {
      assert a + b == b;
    } else {
      assert (a + b)[1..] == a[1..] + b;
      ExpandAgentPoolsConcat(a[1..], b);
    }
  }

  /** Flattening likewise works profile by profile. */
  lemma {:induction false} FlattenAgentPoolsConcat(a: seq<AgentPoolProfile>, b: seq<AgentPoolProfile>, fqdn: Option<string>)
    ensures FlattenAgentPoolList(a + b, fqdn) == FlattenAgentPoolList(a, fqdn) + FlattenAgentPoolList(b, fqdn)
    decreases |a|
  {
    if a == [] {
      assert a + b == b;
    } else {
      assert (a + b)[1..] == a[1..] + b;
      FlattenAgentPoolsConcat(a[1..], b, fqdn);
    }
  }

  /** Flattening the expanded network profile reproduces exactly the declared `vnet_cidr`. */
  lemma NetworkRoundTrip(profiles: seq<NetworkConfig>)
    ensures FlattenNetworkProfile(ExpandNetworkProfile(profiles))
         == if profiles == [] then [] else [map["vnet_cidr" := StringValue(profiles[0].vnetCidr)]]
  {
    if profiles != [] {
      var r := FlattenNetworkProfile(ExpandNetworkProfile(profiles));
      assert r[0].Keys == {"vnet_cidr"};
    }
  }

  /**
    Every AAD provider of an expanded auth profile carries the caller's
    tenant, and the number of AAD providers is the number of blocks declaring
    the AAD kind: no configuration value can select or override the tenant.
   */
  lemma {:induction false} AuthProvidersUseCallerTenant(providers: seq<IdentityProviderConfig>, tenantId: string)
    requires forall i | 0 <= i < |providers| :: ProviderReadable(providers[i].provider)
    ensures var r := ExpandIdentityProviders(providers, tenantId);
      && (forall i | 0 <= i < |r| :: r[i].provider.AadIdentityProvider? ==> r[i].provider.tenantId == Some(tenantId))
      && AadCount(r) == DeclaredAadCount(providers)
    decreases |providers|
  {
    if providers != [] {
      AuthProvidersUseCallerTenant(providers[1..], tenantId);
      var r := ExpandIdentityProviders(providers, tenantId);
      assert r[1..] == ExpandIdentityProviders(providers[1..], tenantId);
    }
  }

  function AadCount(ps: seq<NamedIdentityProvider>): nat {
    if ps == [] then 0
    else (if ps[0].provider.AadIdentityProvider? then 1 else 0) + AadCount(ps[1..])
  }

  function DeclaredAadCount(ps: seq<IdentityProviderConfig>): nat {
    if ps == [] then 0
    else (if ps[0].provider.kind == AadKind then 1 else 0) + DeclaredAadCount(ps[1..])
  }

  /**
    The provider expand is total and changes with the tenant only in the
    tenant field: two expansions of one configuration for different tenants
    differ in nothing else.
   */
  lemma ProviderTenantIsolated(p: ProviderConfig, t1: string, t2: string)
    requires ProviderReadable(p)
    ensures var a := ExpandIdentityProvider(p, t1);
            var b := ExpandIdentityProvider(p, t2);
      a.AadIdentityProvider? ==> a.(tenantId := Some(t2)) == b
    ensures var a := ExpandIdentityProvider(p, t1);
      a.BaseIdentityProvider? ==> a == ExpandIdentityProvider(p, t2)
  {
  }

  /** The master, network and auth translators read only the first block. */
  lemma FirstBlockOnly(
    master: MasterPoolConfig, masters: seq<MasterPoolConfig>,
    network: NetworkConfig, networks: seq<NetworkConfig>,
    auth: AuthConfig, auths: seq<AuthConfig>, tenantId: string)
    requires AuthReadable([auth])
    ensures ExpandMasterPoolProfile([master] + masters) == ExpandMasterPoolProfile([master])
    ensures ExpandNetworkProfile([network] + networks) == ExpandNetworkProfile([network])
    ensures ExpandAuthProfile([auth] + auths, tenantId) == ExpandAuthProfile([auth], tenantId)
  {
  }
}
