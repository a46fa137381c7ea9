/**
  The newer cluster resource: its create handler up to the remote call, and
  the network, router and auth translators. The auth translator hard-wires a
  single AAD provider whose tenant is the caller's.
 */
module ContainersCluster {
  import opened Wrappers
  import opened FieldCodec
  import opened IdentityProviders
  import opened Remote
  import opened ContainersApi
  import opened ContainersNodePool

  /** A network block; each key may be missing from the map. */
  datatype NetworkConfig = NetworkConfig(vnetCidr: Option<string>, peerVnetId: Option<string>, vnetId: Option<string>)

  datatype RouterConfig = RouterConfig(name: string)

  datatype AuthConfig = AuthConfig(aadClientId: string, aadClientSecret: string, aadCustomerAdminGroupId: string)

  /** Name of the single provider the auth translator emits. */
  const AadProviderName: string := "AAD"

  /** The discriminator this translator writes, a literal that differs from `AadKind`. */
  const AadProviderKindLiteral: string := "KindAADIdentityProvider"

  /** Nil for no blocks; otherwise a profile holding each declared, non-empty key of the first block. */
  function ExpandNetworkProfile(input: seq<NetworkConfig>): (r: Result<Option<NetworkProfile>, ExpandError>)
    ensures r.Success?
    ensures r.value.None? <==> input == []
    ensures r.value.Some? ==>
      && (r.value.value.vnetCidr.Some? <==> Declared(input[0].vnetCidr))
      && (Declared(input[0].vnetCidr) ==> r.value.value.vnetCidr == input[0].vnetCidr)
      && (r.value.value.peerVnetId.Some? <==> Declared(input[0].peerVnetId))
      && (Declared(input[0].peerVnetId) ==> r.value.value.peerVnetId == input[0].peerVnetId)
      && (r.value.value.vnetId.Some? <==> Declared(input[0].vnetId))
      && (Declared(input[0].vnetId) ==> r.value.value.vnetId == input[0].vnetId)
  {
    if |input| == 0 then Success(None)
    else
      var config := input[0];
      Success(Some(NetworkProfile(
        vnetCidr := OmitEmpty(config.vnetCidr),
        peerVnetId := OmitEmpty(config.peerVnetId),
        vnetId := OmitEmpty(config.vnetId))))
  }

  /** Nil for no blocks; otherwise a single router named after the first block. */
  function ExpandDefaultRouterProfile(input: seq<RouterConfig>): (r: Result<Option<seq<RouterProfile>>, ExpandError>)
    ensures r.Success?
    ensures r.value.None? <==> input == []
    ensures r.value.Some? ==> r.value.value == [RouterProfile(Some(input[0].name))]
  {
    if |input| == 0 then Success(None)
    else Success(Some([RouterProfile(name := Some(input[0].name))]))
  }

  /** Router blocks after the first are ignored. */
  lemma RouterIgnoresLaterBlocks(first: RouterConfig, rest: seq<RouterConfig>)
    ensures ExpandDefaultRouterProfile([first] + rest) == ExpandDefaultRouterProfile([first])
  {
  }

  /** Exactly one provider, named "AAD", from the block's AAD keys and the caller's tenant. */
  function ExpandAuthProfileIdentityProviders(config: AuthConfig, tenantId: string): (r: Option<seq<NamedIdentityProvider>>)
    ensures r.Some? && |r.value| == 1
    ensures r.value[0].name == Some(AadProviderName)
    ensures r.value[0].provider.AadIdentityProvider?
    ensures r.value[0].provider.clientId == Some(config.aadClientId)
    ensures r.value[0].provider.secret == Some(config.aadClientSecret)
    ensures r.value[0].provider.customerAdminGroupId == Some(config.aadCustomerAdminGroupId)
    ensures r.value[0].provider.tenantId == Some(tenantId)
    ensures r.value[0].provider.kind == AadProviderKindLiteral
  {
    var aad := AadIdentityProvider(
      clientId := Some(config.aadClientId),
      secret := Some(config.aadClientSecret),
      tenantId := Some(tenantId),
      customerAdminGroupId := Some(config.aadCustomerAdminGroupId),
      kind := AadProviderKindLiteral);
    Some([NamedIdentityProvider(name := Some(AadProviderName), provider := aad)])
  }

  /** Nil for no blocks; otherwise the providers built from the first block. */
  function ExpandAuthProfile(input: seq<AuthConfig>, tenantId: string): (r: Result<Option<AuthProfile>, ExpandError>)
    ensures r.Success?
    ensures r.value.None? <==> input == []
    ensures r.value.Some? ==>
      && r.value.value.identityProviders.Some?
      && |r.value.value.identityProviders.value| == 1
      && r.value.value.identityProviders.value[0].name == Some(AadProviderName)
      && r.value.value.identityProviders.value[0].provider
         == AadIdentityProvider(
              Some(input[0].aadClientId), Some(input[0].aadClientSecret), Some(tenantId),
              Some(input[0].aadCustomerAdminGroupId), AadProviderKindLiteral)
  {
    if |input| == 0 then Success(None)
    else Success(Some(AuthProfile(identityProviders := ExpandAuthProfileIdentityProviders(input[0], tenantId))))
  }

  /** The declared resource: top-level arguments and the raw block lists. */
  datatype ResourceData = ResourceData(
    resourceGroupName: string,
    name: string,
    location: string,
    openshiftVersion: string,
    masterPoolProfile: seq<MasterPoolConfig>,
    agentPoolProfile: seq<AgentPoolConfig>,
    networkProfile: seq<NetworkConfig>,
    routerProfile: seq<RouterConfig>,
    authProfile: seq<AuthConfig>)

  /**
    Create up to the remote call: the existence guard (when imports are
    required), then the request built from the expanded blocks. Every expand
    of this package succeeds, so the only way not to reach the remote call
    is the guard.
   */
  function PlanCreate(d: ResourceData, tenantId: string, shouldImport: bool, existing: Response<ManagedCluster>)
    : (r: Result<ManagedCluster, LifecycleError>)
    ensures r.Success? <==> ExistenceGuard(shouldImport, existing).Success?
    ensures r.Failure? ==> r.error == ExistenceGuard(shouldImport, existing).error
    ensures r.Success? ==>
      && r.value.name == Some(d.name)
      && r.value.location == Some(d.location)
      && r.value.properties.Some?
      && var props := r.value.properties.value;
      && props.openShiftVersion == Some(d.openshiftVersion)
      && props.masterPoolProfile == ExpandMasterPoolProfile(d.masterPoolProfile).value
      && (props.masterPoolProfile.None? <==> d.masterPoolProfile == [])
      && props.agentPoolProfiles == ExpandAgentPoolProfiles(d.agentPoolProfile).value
      && (props.agentPoolProfiles.None? <==> d.agentPoolProfile == [])
      && (props.agentPoolProfiles.Some? ==> |props.agentPoolProfiles.value| == |d.agentPoolProfile|)
      && props.networkProfile == ExpandNetworkProfile(d.networkProfile).value
      && (props.networkProfile.None? <==> d.networkProfile == [])
      && props.routerProfiles == ExpandDefaultRouterProfile(d.routerProfile).value
      && (props.routerProfiles.None? <==> d.routerProfile == [])
      && props.authProfile == ExpandAuthProfile(d.authProfile, tenantId).value
      && (props.authProfile.None? <==> d.authProfile == [])
      && (props.authProfile.Some? ==>
            var c := d.authProfile[0];
            props.authProfile.value.identityProviders == Some([NamedIdentityProvider(
              Some(AadProviderName),
              AadIdentityProvider(
                Some(c.aadClientId), Some(c.aadClientSecret), Some(tenantId),
                Some(c.aadCustomerAdminGroupId), AadProviderKindLiteral))]))
  {
    var guard := ExistenceGuard(shouldImport, existing);
    if guard.Failure? then Failure(guard.error)
    else
      var master := ExpandMasterPoolProfile(d.masterPoolProfile);
      var agents := ExpandAgentPoolProfiles(d.agentPoolProfile);
      var network := ExpandNetworkProfile(d.networkProfile);
      var routers := ExpandDefaultRouterProfile(d.routerProfile);
      var auth := ExpandAuthProfile(d.authProfile, tenantId);
      Success(ManagedCluster(
        name := Some(d.name),
        location := Some(d.location),
        properties := Some(Properties(
          openShiftVersion := Some(d.openshiftVersion),
          networkProfile := network.value,
          routerProfiles := routers.value,
          masterPoolProfile := master.value,
          agentPoolProfiles := agents.value,
          authProfile := auth.value))))
  }

  /** Declaring back the keys a network profile holds expands to the same profile. */
  lemma NetworkReExpands(c: NetworkConfig)
    ensures var p := ExpandNetworkProfile([c]).value.value;
      ExpandNetworkProfile([NetworkConfig(p.vnetCidr, p.peerVnetId, p.vnetId)]) == Success(Some(p))
  {
  }

  /** Two expansions of one auth block for different tenants differ only in the tenant. */
  lemma AuthTenantIsolated(input: seq<AuthConfig>, t1: string, t2: string)
    requires input != []
    ensures var a := ExpandAuthProfile(input, t1).value.value.identityProviders.value;
            var b := ExpandAuthProfile(input, t2).value.value.identityProviders.value;
      && a[0].provider.tenantId == Some(t1)
      && b[0].provider.tenantId == Some(t2)
      && a[0].(provider := a[0].provider.(tenantId := Some(t2))) == b[0]
  {
  }

  /**
    Applying twice does not create twice: once a create has been adopted
    under a non-empty identifier, a re-create with import checking on that
    looks the cluster up again is refused with that identifier.
   */
  lemma SecondCreateRefused(d: ResourceData, tenantId: string, read: Response<ManagedCluster>)
    requires AdoptCreatedId(read).Success? && AdoptCreatedId(read).value != ""
    ensures PlanCreate(d, tenantId, true, read) == Failure(ImportAsExists(ResourceType, AdoptCreatedId(read).value))
  {
  }
}
