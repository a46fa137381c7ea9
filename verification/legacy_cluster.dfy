/**
  Translators of the older cluster resource (2019-02-01 API shapes): expand
  turns the declared configuration blocks into request profiles, flatten
  turns response profiles back into configuration maps.

  Each declared block list (`d.Get("agent_pool_profile")` and so on) is a
  sequence of records; the Go type assertions on map keys become the record
  fields, and the one key that is read only conditionally (the AAD fields of
  a provider) is an `Option` with a precondition.
 */
module LegacyCluster {
  import opened Wrappers
  import opened FieldCodec
  import opened IdentityProviders

  // ---- declared configuration ----

  datatype MasterPoolConfig = MasterPoolConfig(name: string, count: int, vmSize: string, osType: string)

  datatype AgentPoolConfig = AgentPoolConfig(name: string, count: int, vmSize: string, osType: string, role: string)

  datatype NetworkConfig = NetworkConfig(vnetCidr: string)

  /** The `provider` map of an identity provider block: `kind`, and the AAD keys. */
  datatype ProviderConfig = ProviderConfig(
    kind: string,
    clientId: Option<string>,
    clientSecret: Option<string>,
    groupId: Option<string>)

  datatype IdentityProviderConfig = IdentityProviderConfig(name: string, provider: ProviderConfig)

  datatype AuthConfig = AuthConfig(providers: seq<IdentityProviderConfig>)

  /** The AAD keys are type-asserted only when `kind` selects the AAD variant; then they must be present. */
  predicate ProviderReadable(p: ProviderConfig) {
    p.kind == AadKind ==> p.clientId.Some? && p.clientSecret.Some? && p.groupId.Some?
  }

  predicate AuthReadable(configs: seq<AuthConfig>) {
    configs != [] ==>
      forall i | 0 <= i < |configs[0].providers| :: ProviderReadable(configs[0].providers[i].provider)
  }

  // ---- request / response profiles ----

  /** Enum-typed fields (`vmSize`, `osType`, `role`) are plain strings whose unset value is "". */
  datatype MasterPoolProfile = MasterPoolProfile(
    name: Option<string>,
    count: Option<Int32>,
    vmSize: string,
    subnetCidr: Option<string>,
    osType: string)

  datatype AgentPoolProfile = AgentPoolProfile(
    name: Option<string>,
    count: Option<Int32>,
    vmSize: string,
    subnetCidr: Option<string>,
    osType: string,
    role: string)

  datatype NetworkProfile = NetworkProfile(vnetCidr: Option<string>, peerVnetId: Option<string>)

  datatype AuthProfile = AuthProfile(identityProviders: Option<seq<NamedIdentityProvider>>)

  // ---- flattened configuration ----

  datatype FlatValue = IntValue(i: int) | StringValue(s: string)

  /** A `map[string]interface{}` written back to state. */
  type FlatMap = map<string, FlatValue>

  // ---- expand ----

  /** Only the first master block is read; an empty list gives no profile. */
  function ExpandMasterPoolProfile(profiles: seq<MasterPoolConfig>): (r: Option<MasterPoolProfile>)
    ensures r.None? <==> profiles == []
    ensures r.Some? ==>
      && r.value.name == Some(profiles[0].name)
      && r.value.count == Some(ToInt32(profiles[0].count))
      && (FitsInt32(profiles[0].count) ==> r.value.count.value as int == profiles[0].count)
      && r.value.vmSize == profiles[0].vmSize
      && r.value.osType == profiles[0].osType
      && r.value.subnetCidr.None?
  {
    if |profiles| == 0 then None
    else
      var config := profiles[0];
      Some(MasterPoolProfile(
        name := Some(config.name),
        count := Some(ToInt32(config.count)),
        vmSize := config.vmSize,
        subnetCidr := None,
        osType := config.osType))
  }

  /**
    The polymorphic provider: the AAD kind yields the AAD variant built from
    the declared keys and the caller's tenant; every other kind falls back to
    the base variant, which keeps nothing but its discriminator.
   */
  function ExpandIdentityProvider(provider: ProviderConfig, tenantId: string): (r: IdentityProvider)
    requires ProviderReadable(provider)
    ensures r.AadIdentityProvider? <==> provider.kind == AadKind
    ensures r.AadIdentityProvider? ==>
      && r.clientId == provider.clientId
      && r.secret == provider.clientSecret
      && r.customerAdminGroupId == provider.groupId
      && r.tenantId == Some(tenantId)
      && r.kind == AadKind
    ensures r.BaseIdentityProvider? ==> r.kind == BaseKind
  {
    if provider.kind == AadKind then
      AadIdentityProvider(
        clientId := Some(provider.clientId.value),
        secret := Some(provider.clientSecret.value),
        tenantId := Some(tenantId),
        customerAdminGroupId := Some(provider.groupId.value),
        kind := AadKind)
    else
      BaseIdentityProvider(BaseKind)
  }

  /** One named provider per declared provider, in declaration order. */
  function ExpandIdentityProviders(providers: seq<IdentityProviderConfig>, tenantId: string): (r: seq<NamedIdentityProvider>)
    requires forall i | 0 <= i < |providers| :: ProviderReadable(providers[i].provider)
    ensures |r| == |providers|
    ensures forall i | 0 <= i < |providers| ::
      && r[i].name == Some(providers[i].name)
      && r[i].provider == ExpandIdentityProvider(providers[i].provider, tenantId)
  {
    if providers == [] then []
    else
      [NamedIdentityProvider(Some(providers[0].name), ExpandIdentityProvider(providers[0].provider, tenantId))]
      + ExpandIdentityProviders(providers[1..], tenantId)
  }

  /** Only the first auth block is read; its providers all go into the profile. */
  function ExpandAuthProfile(configs: seq<AuthConfig>, tenantId: string): (r: Option<AuthProfile>)
    requires AuthReadable(configs)
    ensures r.None? <==> configs == []
    ensures r.Some? ==>
      && r.value.identityProviders.Some?
      && |r.value.identityProviders.value| == |configs[0].providers|
      && forall i | 0 <= i < |configs[0].providers| ::
           && r.value.identityProviders.value[i].name == Some(configs[0].providers[i].name)
           && r.value.identityProviders.value[i].provider
              == ExpandIdentityProvider(configs[0].providers[i].provider, tenantId)
  {
    if |configs| == 0 then None
    else Some(AuthProfile(Some(ExpandIdentityProviders(configs[0].providers, tenantId))))
  }

  /** How one agent block is carried into a request profile. */
  predicate AgentExpandedFrom(c: AgentPoolConfig, p: AgentPoolProfile) {
    && p.name == Some(c.name)
    && p.count == Some(ToInt32(c.count))
    && (FitsInt32(c.count) ==> p.count.value as int == c.count)
    && p.vmSize == c.vmSize
    && p.osType == c.osType
    && p.role == c.role
    && p.subnetCidr.None?
  }

  /** Always a list: an empty configuration gives an empty list, never nil. */
  function ExpandAgentPoolProfiles(configs: seq<AgentPoolConfig>): (r: seq<AgentPoolProfile>)
    ensures |r| == |configs|
    ensures forall i | 0 <= i < |configs| :: AgentExpandedFrom(configs[i], r[i])
  {
    if configs == [] then []
    else
      var config := configs[0];
      [AgentPoolProfile(
         name := Some(config.name),
         count := Some(ToInt32(config.count)),
         vmSize := config.vmSize,
         subnetCidr := None,
         osType := config.osType,
         role := config.role)]
      + ExpandAgentPoolProfiles(configs[1..])
  }

  function ExpandNetworkProfile(profiles: seq<NetworkConfig>): (r: Option<NetworkProfile>)
    ensures r.None? <==> profiles == []
    ensures r.Some? ==> r.value.vnetCidr == Some(profiles[0].vnetCidr) && r.value.peerVnetId.None?
  {
    if |profiles| == 0 then None
    else Some(NetworkProfile(vnetCidr := Some(profiles[0].vnetCidr), peerVnetId := None))
  }

  // ---- flatten ----

  const AgentPoolKeys: set<string> := {"count", "fqdn", "name", "vm_size", "os_type"}

  /** How one response profile (and the parent's fqdn) is written back as a map. */
  predicate AgentFlattenedFrom(p: AgentPoolProfile, fqdn: Option<string>, m: FlatMap) {
    && m.Keys <= AgentPoolKeys
    && ("count" in m <==> p.count.Some?)
    && (p.count.Some? ==> m["count"] == IntValue(p.count.value as int))
    && ("fqdn" in m <==> fqdn.Some?)
    && (fqdn.Some? ==> m["fqdn"] == StringValue(fqdn.value))
    && ("name" in m <==> p.name.Some?)
    && (p.name.Some? ==> m["name"] == StringValue(p.name.value))
    && ("vm_size" in m <==> p.vmSize != "")
    && (p.vmSize != "" ==> m["vm_size"] == StringValue(p.vmSize))
    && ("os_type" in m <==> p.osType != "")
    && (p.osType != "" ==> m["os_type"] == StringValue(p.osType))
  }

  function FlattenAgentPoolProfile(p: AgentPoolProfile, fqdn: Option<string>): (m: FlatMap)
    ensures AgentFlattenedFrom(p, fqdn, m)
    ensures "role" !in m
  {
    var m0: FlatMap := map[];
    var m1 := if p.count.Some? then m0["count" := IntValue(p.count.value as int)] else m0;
    var m2 := if fqdn.Some? then m1["fqdn" := StringValue(fqdn.value)] else m1;
    var m3 := if p.name.Some? then m2["name" := StringValue(p.name.value)] else m2;
    var m4 := if p.vmSize != "" then m3["vm_size" := StringValue(p.vmSize)] else m3;
    if p.osType != "" then m4["os_type" := StringValue(p.osType)] else m4
  }

  function FlattenAgentPoolList(profiles: seq<AgentPoolProfile>, fqdn: Option<string>): (r: seq<FlatMap>)
    ensures |r| == |profiles|
    ensures forall i | 0 <= i < |profiles| :: AgentFlattenedFrom(profiles[i], fqdn, r[i]) && "role" !in r[i]
  {
    if profiles == [] then []
    else [FlattenAgentPoolProfile(profiles[0], fqdn)] + FlattenAgentPoolList(profiles[1..], fqdn)
  }

  /** A nil list flattens to an empty list; otherwise one map per profile, in order. */
  function FlattenAgentPoolProfiles(profiles: Option<seq<AgentPoolProfile>>, fqdn: Option<string>): (r: seq<FlatMap>)
    ensures profiles.None? ==> r == []
    ensures profiles.Some? ==>
      && |r| == |profiles.value|
      && forall i | 0 <= i < |r| :: AgentFlattenedFrom(profiles.value[i], fqdn, r[i]) && "role" !in r[i]
  {
    if profiles.None? then [] else FlattenAgentPoolList(profiles.value, fqdn)
  }

  /** A nil profile flattens to an empty list; otherwise exactly one map. */
  function FlattenNetworkProfile(profile: Option<NetworkProfile>): (r: seq<FlatMap>)
    ensures profile.None? ==> r == []
    ensures profile.Some? ==>
      && |r| == 1
      && r[0].Keys <= {"vnet_cidr", "peer_vnet_id"}
      && ("vnet_cidr" in r[0] <==> profile.value.vnetCidr.Some?)
      && (profile.value.vnetCidr.Some? ==> r[0]["vnet_cidr"] == StringValue(profile.value.vnetCidr.value))
      && ("peer_vnet_id" in r[0] <==> profile.value.peerVnetId.Some?)
      && (profile.value.peerVnetId.Some? ==> r[0]["peer_vnet_id"] == StringValue(profile.value.peerVnetId.value))
  {
    if profile.None? then []
    else
      var p := profile.value;
      var m0: FlatMap := map[];
      var m1 := if p.vnetCidr.Some? then m0["vnet_cidr" := StringValue(p.vnetCidr.value)] else m0;
      var m2 := if p.peerVnetId.Some? then m1["peer_vnet_id" := StringValue(p.peerVnetId.value)] else m1;
      [m2]
  }
}
