/**
  Request profiles of the newer cluster resource (2020-02-01 API shapes), as
  the containers service package fills them in.
 */
module ContainersApi {
  import opened Wrappers
  import opened IdentityProviders

  /** The agent count is assigned from the configuration integer without conversion. */
  datatype AgentPoolProfile = AgentPoolProfile(
    name: Option<string>,
    count: int,
    vmSize: string,
    subnetCidr: Option<string>,
    osType: string,
    role: string)

  datatype MasterPoolProfile = MasterPoolProfile(
    name: Option<string>,
    count: int,
    vmSize: Option<string>,
    subnetCidr: Option<string>,
    osType: Option<string>)

  datatype NetworkProfile = NetworkProfile(vnetCidr: Option<string>, peerVnetId: Option<string>, vnetId: Option<string>)

  datatype RouterProfile = RouterProfile(name: Option<string>)

  datatype AuthProfile = AuthProfile(identityProviders: Option<seq<NamedIdentityProvider>>)

  datatype Properties = Properties(
    openShiftVersion: Option<string>,
    networkProfile: Option<NetworkProfile>,
    routerProfiles: Option<seq<RouterProfile>>,
    masterPoolProfile: Option<MasterPoolProfile>,
    agentPoolProfiles: Option<seq<AgentPoolProfile>>,
    authProfile: Option<AuthProfile>)

  datatype ManagedCluster = ManagedCluster(name: Option<string>, location: Option<string>, properties: Option<Properties>)

  /** The error an expand function may return; the expand functions of this package never do. */
  datatype ExpandError = ExpandError(message: string)
}
