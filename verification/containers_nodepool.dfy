/**
  Node-pool translators of the newer cluster resource. Both return nil for
  an empty block list; optional string keys are carried over only when
  present and non-empty.
 */
module ContainersNodePool {
  import opened Wrappers
  import opened FieldCodec
  import opened ContainersApi

  /** An agent block; `os_type` and `subnet_cidr` may be missing from the map. */
  datatype AgentPoolConfig = AgentPoolConfig(
    name: string,
    nodeCount: int,
    vmSize: string,
    role: string,
    osType: Option<string>,
    subnetCidr: Option<string>)

  datatype MasterPoolConfig = MasterPoolConfig(
    name: string,
    nodeCount: int,
    vmSize: string,
    subnetCidr: Option<string>,
    osType: Option<string>)

  /** How one agent block is carried into a request profile. */
  predicate AgentExpandedFrom(c: AgentPoolConfig, p: AgentPoolProfile) {
    && p.name == Some(c.name)
    && p.count == c.nodeCount
    && p.vmSize == c.vmSize
    && p.role == c.role
    && (p.osType != "" <==> Declared(c.osType))
    && (Declared(c.osType) ==> p.osType == c.osType.value)
    && (p.subnetCidr.Some? <==> Declared(c.subnetCidr))
    && (Declared(c.subnetCidr) ==> p.subnetCidr == c.subnetCidr)
  }

  function ExpandAgentPoolProfile(c: AgentPoolConfig): (p: AgentPoolProfile)
    ensures AgentExpandedFrom(c, p)
  {
    AgentPoolProfile(
      name := Some(c.name),
      count := c.nodeCount,
      vmSize := c.vmSize,
      subnetCidr := OmitEmpty(c.subnetCidr),
      osType := EnumOrUnset(c.osType),
      role := c.role)
  }

  function ExpandAgentPoolList(configs: seq<AgentPoolConfig>): (r: seq<AgentPoolProfile>)
    ensures |r| == |configs|
    ensures forall i | 0 <= i < |configs| :: AgentExpandedFrom(configs[i], r[i])
  {
    if configs == [] then []
    else [ExpandAgentPoolProfile(configs[0])] + ExpandAgentPoolList(configs[1..])
  }

  /** Nil for no blocks; otherwise one profile per block, in order. Never an error. */
  function ExpandAgentPoolProfiles(configs: seq<AgentPoolConfig>): (r: Result<Option<seq<AgentPoolProfile>>, ExpandError>)
    ensures r.Success?
    ensures r.value.None? <==> configs == []
    ensures r.value.Some? ==>
      && |r.value.value| == |configs|
      && forall i | 0 <= i < |configs| :: AgentExpandedFrom(configs[i], r.value.value[i])
  {
    if |configs| == 0 then Success(None)
    else Success(Some(ExpandAgentPoolList(configs)))
  }

  /** The agent expand keeps declaration order: it distributes over concatenation. */
  lemma {:induction false} ExpandAgentPoolListConcat(a: seq<AgentPoolConfig>, b: seq<AgentPoolConfig>)
    ensures ExpandAgentPoolList(a + b) == ExpandAgentPoolList(a) + ExpandAgentPoolList(b)
    decreases |a|
  {
    if a == [] {
      assert a + b == b;
    } else {
      assert (a + b)[1..] == a[1..] + b;
      ExpandAgentPoolListConcat(a[1..], b);
    }
  }

  /** Nil for no blocks; otherwise only the first block is read. Never an error. */
  function ExpandMasterPoolProfile(input: seq<MasterPoolConfig>): (r: Result<Option<MasterPoolProfile>, ExpandError>)
    ensures r.Success?
    ensures r.value.None? <==> input == []
    ensures r.value.Some? ==>
      && r.value.value.name == Some(input[0].name)
      && r.value.value.count == input[0].nodeCount
      && r.value.value.vmSize == Some(input[0].vmSize)
      && (r.value.value.subnetCidr.Some? <==> Declared(input[0].subnetCidr))
      && (Declared(input[0].subnetCidr) ==> r.value.value.subnetCidr == input[0].subnetCidr)
      && (r.value.value.osType.Some? <==> Declared(input[0].osType))
      && (Declared(input[0].osType) ==> r.value.value.osType == input[0].osType)
  {
    if |input| == 0 then Success(None)
    else
      var config := input[0];
      Success(Some(MasterPoolProfile(
        name := Some(config.name),
        count := config.nodeCount,
        vmSize := Some(config.vmSize),
        subnetCidr := OmitEmpty(config.subnetCidr),
        osType := OmitEmpty(config.osType))))
  }

  /** Blocks after the first have no effect on the master profile. */
  lemma MasterIgnoresLaterBlocks(first: MasterPoolConfig, rest: seq<MasterPoolConfig>)
    ensures ExpandMasterPoolProfile([first] + rest) == ExpandMasterPoolProfile([first])
  {
  }

  /**
    Declaring back what an agent profile holds (with its unset `os_type` as
    "" and its unset subnet as a missing key) expands to the same profile.
   */
  lemma AgentPoolReExpands(c: AgentPoolConfig)
    ensures var p := ExpandAgentPoolProfile(c);
      ExpandAgentPoolProfile(AgentPoolConfig(p.name.value, p.count, p.vmSize, p.role, Some(p.osType), p.subnetCidr)) == p
  {
  }

  /** The same for the master profile. */
  lemma MasterPoolReExpands(c: MasterPoolConfig)
    ensures var p := ExpandMasterPoolProfile([c]).value.value;
      ExpandMasterPoolProfile([MasterPoolConfig(p.name.value, p.count, p.vmSize.value, p.subnetCidr, p.osType)])
      == Success(Some(p))
  {
  }
}
