/**
  The older resource's create/update and read handlers, reduced to their
  decisions. Remote calls are replaced by their outcomes: the existence
  lookup and the read-back are `Response` inputs, and the handlers return the
  request they would send or the state they would record.
 */
module LegacyLifecycle {
  import opened Wrappers
  import opened FieldCodec
  import opened IdentityProviders
  import opened Remote
  import opened LegacyCluster

  /** The declared resource: top-level arguments and the raw block lists. */
  datatype ResourceData = ResourceData(
    resourceGroupName: string,
    name: string,
    location: string,
    openshiftVersion: string,
    fqdn: string,
    authProfile: seq<AuthConfig>,
    masterPoolProfile: seq<MasterPoolConfig>,
    agentPoolProfile: seq<AgentPoolConfig>,
    networkProfile: seq<NetworkConfig>,
    isNewResource: bool)

  datatype Properties = Properties(
    openShiftVersion: Option<string>,
    fqdn: Option<string>,
    authProfile: Option<AuthProfile>,
    masterPoolProfile: Option<MasterPoolProfile>,
    agentPoolProfiles: Option<seq<AgentPoolProfile>>,
    networkProfile: Option<NetworkProfile>)

  /** The cluster as sent in a request and as returned by `Get` (its identifier travels in the `Response`). */
  datatype ManagedCluster = ManagedCluster(name: Option<string>, location: Option<string>, properties: Option<Properties>)

  /**
    Create/update up to the remote call: the existence guard (only when
    imports are required and the resource is new), then the request built
    from the expanded blocks and the caller's tenant.
   */
  function PlanCreateUpdate(d: ResourceData, tenantId: string, requireImport: bool, existing: Response<ManagedCluster>)
    : (r: Result<ManagedCluster, LifecycleError>)
    requires AuthReadable(d.authProfile)
    ensures r.Success? <==> ExistenceGuard(requireImport && d.isNewResource, existing).Success?
    ensures r.Failure? ==> r.error == ExistenceGuard(requireImport && d.isNewResource, existing).error
    ensures r.Success? ==>
      && r.value.name == Some(d.name)
      && r.value.location == Some(d.location)
      && r.value.properties.Some?
      && var props := r.value.properties.value;
      && props.openShiftVersion == Some(d.openshiftVersion)
      && props.fqdn == Some(d.fqdn)
      && props.agentPoolProfiles == Some(ExpandAgentPoolProfiles(d.agentPoolProfile))
      && |props.agentPoolProfiles.value| == |d.agentPoolProfile|
      && props.masterPoolProfile == ExpandMasterPoolProfile(d.masterPoolProfile)
      && (props.masterPoolProfile.None? <==> d.masterPoolProfile == [])
      && props.networkProfile == ExpandNetworkProfile(d.networkProfile)
      && (props.networkProfile.None? <==> d.networkProfile == [])
      && props.authProfile == ExpandAuthProfile(d.authProfile, tenantId)
      && (props.authProfile.None? <==> d.authProfile == [])
      && (props.authProfile.Some? ==>
            && props.authProfile.value.identityProviders.Some?
            && forall i | 0 <= i < |props.authProfile.value.identityProviders.value| ::
              var p := props.authProfile.value.identityProviders.value[i].provider;
              p.AadIdentityProvider? ==> p.tenantId == Some(tenantId))
  {
    var guard := ExistenceGuard(requireImport && d.isNewResource, existing);
    if guard.Failure? then Failure(guard.error)
    else
      Success(ManagedCluster(
        name := Some(d.name),
        location := Some(d.location),
        properties := Some(Properties(
          openShiftVersion := Some(d.openshiftVersion),
          fqdn := Some(d.fqdn),
          authProfile := ExpandAuthProfile(d.authProfile, tenantId),
          masterPoolProfile := ExpandMasterPoolProfile(d.masterPoolProfile),
          agentPoolProfiles := Some(ExpandAgentPoolProfiles(d.agentPoolProfile)),
          networkProfile := ExpandNetworkProfile(d.networkProfile)))))
  }

  /** A parsed resource identifier: its resource group and its `key/value` path segments. */
  datatype ResourceId = ResourceId(resourceGroup: string, path: map<string, string>)

  /** The path key the read handler takes the cluster name from. */
  const LookupKey: string := "managedClusters"

  /**
    The name the read handler looks the cluster up by: the `managedClusters`
    path segment, or "" (Go's zero value) when the identifier has none.
   */
  function LookupName(id: ResourceId): (name: string)
    ensures LookupKey in id.path ==> name == id.path[LookupKey]
    ensures LookupKey !in id.path ==> name == ""
  {
    if LookupKey in id.path then id.path[LookupKey] else ""
  }

  /**
    An identifier of this resource type carries an `openShiftManagedClusters`
    segment and no `managedClusters` one, so the read looks it up by "".
   */
  lemma OpenShiftIdLookedUpByEmptyName(resourceGroup: string, clusterName: string)
    ensures LookupName(ResourceId(resourceGroup, map["openShiftManagedClusters" := clusterName])) == ""
  {
  }

  datatype ReadError = MalformedId(message: string) | ReadFailed(cause: RemoteError)

  /** What a read writes to state when the response has properties. */
  datatype ObservedProperties = ObservedProperties(
    fqdn: Option<string>,
    openshiftVersion: Option<string>,
    agentPoolProfile: seq<FlatMap>,
    networkProfile: seq<FlatMap>)

  datatype ObservedState = ObservedState(
    name: Option<string>,
    resourceGroupName: string,
    location: Option<string>,
    properties: Option<ObservedProperties>)

  /** The identifier kept in state after a read, the error returned, and what was observed. */
  datatype ReadResult = ReadResult(id: string, err: Option<ReadError>, observed: Option<ObservedState>)

  /**
    The read handler. `get(resourceGroup, name)` stands for the remote lookup;
    the handler calls it with the parsed resource group and `LookupName`. A
    not-found response clears the identifier and returns no error. Any other
    lookup failure is an error that leaves the identifier alone.
   */
  function Read(priorId: string, parsed: Result<ResourceId, string>, get: (string, string) -> Response<ManagedCluster>)
    : (r: ReadResult)
    ensures parsed.Failure? ==> r == ReadResult(priorId, Some(MalformedId(parsed.error)), None)
    ensures parsed.Success? ==>
      var resp := get(parsed.value.resourceGroup, LookupName(parsed.value));
      && (resp.err.Some? && resp.notFound ==> r == ReadResult("", None, None))
      && (resp.err.Some? && !resp.notFound ==> r == ReadResult(priorId, Some(ReadFailed(resp.err.value)), None))
      && (resp.err.None? ==>
            && r.id == priorId
            && r.err.None?
            && r.observed.Some?
            && r.observed.value.name == resp.body.name
            && r.observed.value.resourceGroupName == parsed.value.resourceGroup
            && r.observed.value.location == resp.body.location
            && (r.observed.value.properties.Some? <==> resp.body.properties.Some?)
            && (resp.body.properties.Some? ==>
                  var props := resp.body.properties.value;
                  var seen := r.observed.value.properties.value;
                  && seen.agentPoolProfile == FlattenAgentPoolProfiles(props.agentPoolProfiles, props.fqdn)
                  && |seen.agentPoolProfile| == (if props.agentPoolProfiles.Some? then |props.agentPoolProfiles.value| else 0)
                  && seen.networkProfile == FlattenNetworkProfile(props.networkProfile)
                  && |seen.networkProfile| == (if props.networkProfile.Some? then 1 else 0)
                  && seen.fqdn == props.fqdn
                  && seen.openshiftVersion == props.openShiftVersion))
    ensures r.id == "" && priorId != "" ==>
      && parsed.Success?
      && get(parsed.value.resourceGroup, LookupName(parsed.value)).err.Some?
      && get(parsed.value.resourceGroup, LookupName(parsed.value)).notFound
  {
    if parsed.Failure? then ReadResult(priorId, Some(MalformedId(parsed.error)), None)
    else
      var resp := get(parsed.value.resourceGroup, LookupName(parsed.value));
      if resp.err.Some? then
        if resp.notFound then ReadResult("", None, None)
        else ReadResult(priorId, Some(ReadFailed(resp.err.value)), None)
      else
        var cluster := resp.body;
        var observedProps :=
          if cluster.properties.None? then None
          else
            var props := cluster.properties.value;
            Some(ObservedProperties(
              fqdn := props.fqdn,
              openshiftVersion := props.openShiftVersion,
              agentPoolProfile := FlattenAgentPoolProfiles(props.agentPoolProfiles, props.fqdn),
              networkProfile := FlattenNetworkProfile(props.networkProfile)));
        ReadResult(priorId, None, Some(ObservedState(cluster.name, parsed.value.resourceGroup, cluster.location, observedProps)))
  }

  /**
    The acceptance-test configuration (resource_arm_openshift_cluster_test.go):
    with no existing cluster, the request carries a master count of 1, a
    single "Compute" agent pool, the AAD provider with the caller's tenant,
    and a network profile with only the declared `vnet_cidr`.
   */
  lemma AcceptanceConfigurationRequest(tenantId: string, clientId: string, secret: string, groupId: string)
    ensures
      var d := ResourceData(
        "acctestRG-1", "acctestopenshift1", "westeurope", "v3.11", "",
        [AuthConfig([IdentityProviderConfig("Azure AD",
           ProviderConfig(AadKind, Some(clientId), Some(secret), Some(groupId)))])],
        [MasterPoolConfig("default", 1, "Standard_D2s_v3", "Linux")],
        [AgentPoolConfig("default", 1, "Standard_D2s_v3", "Linux", "Compute")],
        [NetworkConfig("10.0.0.0/8")],
        true);
      var notFound: Response<ManagedCluster> := Response(Some(RemoteError("404")), true, None, ManagedCluster(None, None, None));
      var r := PlanCreateUpdate(d, tenantId, true, notFound);
      && r.Success?
      && var props := r.value.properties.value;
      && props.masterPoolProfile.value.count == Some(1 as Int32)
      && props.agentPoolProfiles.value[0].role == "Compute"
      && props.authProfile.value.identityProviders.value
         == [NamedIdentityProvider(Some("Azure AD"),
               AadIdentityProvider(Some(clientId), Some(secret), Some(tenantId), Some(groupId), AadKind))]
      && props.networkProfile == Some(NetworkProfile(Some("10.0.0.0/8"), None))
  {
  }

  /**
    Applying twice does not create twice: once a create has been adopted
    under a non-empty identifier, a guarded re-create that looks the cluster
    up again is refused with that identifier.
   */
  lemma SecondCreateRefused(d: ResourceData, tenantId: string, read: Response<ManagedCluster>)
    requires AuthReadable(d.authProfile)
    requires d.isNewResource
    requires AdoptCreatedId(read).Success? && AdoptCreatedId(read).value != ""
    ensures PlanCreateUpdate(d, tenantId, true, read) == Failure(ImportAsExists(ResourceType, AdoptCreatedId(read).value))
  {
  }

  /**
    For an identifier without a `managedClusters` segment, what a read
    records depends only on the lookup of the empty name: how the remote
    answers for any actual cluster name makes no difference.
   */
  lemma ReadOfOpenShiftIdIgnoresClusterName(
    priorId: string, id: ResourceId,
    get1: (string, string) -> Response<ManagedCluster>, get2: (string, string) -> Response<ManagedCluster>)
    requires LookupKey !in id.path
    requires get1(id.resourceGroup, "") == get2(id.resourceGroup, "")
    ensures Read(priorId, Success(id), get1) == Read(priorId, Success(id), get2)
  {
  }

  /**
    A read that drops the resource from state (its lookup reported not
    found) licenses a guarded re-create only when the create's own lookup,
    by the declared resource group and name, also reports no identifier and
    no error other than not-found.
   */
  lemma RecreateAfterRemoval(
    priorId: string, id: ResourceId, get: (string, string) -> Response<ManagedCluster>,
    d: ResourceData, tenantId: string)
    requires AuthReadable(d.authProfile)
    requires Read(priorId, Success(id), get).id == "" && priorId != ""
    requires get(d.resourceGroupName, d.name).id.None?
    requires get(d.resourceGroupName, d.name) == get(id.resourceGroup, LookupName(id))
    ensures PlanCreateUpdate(d, tenantId, true, get(d.resourceGroupName, d.name)).Success?
  {
  }
}
