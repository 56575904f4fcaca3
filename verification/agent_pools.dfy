/**
 The agent-pool resource spec of a managed (AKS) cluster: its identity accessors and
 `Parameters`, which compares the desired pool against the pool the cluster reports and
 yields no change, a create-or-update payload, or a transient error while the pool is
 still being mutated.
 */
module AgentPools {
  import opened Common

  /** Node labels, Go's `map[string]*string`; a nil map is `None` wherever one can occur. */
  type Labels = map<string, Option<string>>

  /** AgentPoolSpec: the desired agent pool. */
  datatype AgentPoolSpec = AgentPoolSpec(
    name: string,
    resourceGroup: string,
    cluster: string,
    version: Option<string>,
    sku: string,
    replicas: int32,
    osDiskSizeGB: int32,
    vnetSubnetID: string,
    mode: string,
    maxCount: Option<int32>,
    minCount: Option<int32>,
    nodeLabels: Option<Labels>,
    nodeTaints: seq<string>,
    enableAutoScaling: Option<bool>,
    availabilityZones: seq<string>,
    maxPods: Option<int32>,
    osDiskType: Option<string>,
    enableUltraSSD: Option<bool>,
    osType: Option<string>,
    headers: map<string, string>,
    enableNodePublicIP: Option<bool>,
    nodePublicIPPrefixID: Option<string>,
    scaleSetPriority: Option<string>)
  {
    /** The name of the agent pool. */
    function ResourceName(): (r: string)
      ensures r == name
    {
      name
    }

    /** The resource group of the managed cluster. */
    function ResourceGroupName(): (r: string)
      ensures r == resourceGroup
    {
      resourceGroup
    }

    /** The managed cluster that owns the pool. */
    function OwnerResourceName(): (r: string)
      ensures r == cluster
    {
      cluster
    }

    /** The extra HTTP headers for the API calls on this pool. */
    function CustomHeaders(): (r: map<string, string>)
      ensures r == headers
    {
      headers
    }
  }

  /** The fields `Parameters` reads from the agent pool the cluster reports. */
  datatype AgentPool = AgentPool(
    provisioningState: string,
    count: Option<int32>,
    orchestratorVersion: Option<string>,
    mode: string,
    enableAutoScaling: Option<bool>,
    minCount: Option<int32>,
    maxCount: Option<int32>,
    nodeLabels: Option<Labels>,
    nodeTaints: Option<seq<string>>)

  /** The normalized comparison projection: the only fields that take part in the diff. */
  datatype Profile = Profile(
    count: Option<int32>,
    orchestratorVersion: Option<string>,
    mode: string,
    enableAutoScaling: Option<bool>,
    minCount: Option<int32>,
    maxCount: Option<int32>,
    nodeLabels: Option<Labels>,
    nodeTaints: Option<seq<string>>)

  /** containerservice.AgentPool as a create-or-update payload (`poolType` is its `Type`). */
  datatype AgentPoolParams = AgentPoolParams(
    availabilityZones: Option<seq<string>>,
    count: Option<int32>,
    enableAutoScaling: Option<bool>,
    enableUltraSSD: Option<bool>,
    maxCount: Option<int32>,
    maxPods: Option<int32>,
    minCount: Option<int32>,
    mode: string,
    nodeLabels: Option<Labels>,
    nodeTaints: Option<seq<string>>,
    orchestratorVersion: Option<string>,
    osDiskSizeGB: Option<int32>,
    osDiskType: string,
    osType: string,
    scaleSetPriority: string,
    poolType: string,
    vmSize: Option<string>,
    vnetSubnetID: Option<string>,
    enableNodePublicIP: Option<bool>,
    nodePublicIPPrefixID: Option<string>)

  /** The three outcomes of `Parameters`: Go's `(nil, nil)`, `(payload, nil)` and `(nil, err)`. */
  datatype ParametersResult = NoChange | Put(payload: AgentPoolParams) | Fail(error: Error)

  /** containerservice.AgentPoolTypeVirtualMachineScaleSets. */
  const VirtualMachineScaleSets: string := "VirtualMachineScaleSets"

  /** The terminal provisioning states. */
  const Canceled: string := "Canceled"
  const Failed: string := "Failed"
  const Succeeded: string := "Succeeded"

  /** The retry hint, in seconds, for a pool that is not in a terminal state. */
  const NonTerminalRetrySeconds: nat := 20

  /** The fixed head of the error for a pool that is not in a terminal state. */
  const NonTerminalMessage: string :=
    "Unable to update existing agent pool in non terminal state. Agent pool must be in one of the following provisioning states: Canceled, Failed, or Succeeded. Actual state: "

  /** The reserved key prefix of labels that AKS itself puts on node pools. */
  const SystemLabelPrefix: string := "kubernetes.azure.com"

  /** No other operation is running on a pool in this provisioning state. */
  predicate IsTerminal(state: string) {
    state == Canceled || state == Failed || state == Succeeded
  }

  /** azureutil.IsAzureSystemNodeLabelKey. */
  predicate IsAzureSystemNodeLabelKey(key: string) {
    SystemLabelPrefix <= key
  }

  /** `key` is a system label among the labels AKS reports. */
  predicate ReportedSystemLabel(aks: Option<Labels>, key: string) {
    aks.Some? && key in aks.value && IsAzureSystemNodeLabelKey(key)
  }

  /** mergeSystemNodeLabels: the desired labels, with every system label AKS reports
      added and taking precedence; no other reported label is added. */
  function MergeSystemNodeLabels(capz: Labels, aks: Option<Labels>): (r: Labels)
    ensures forall k :: k in r <==> k in capz || ReportedSystemLabel(aks, k)
    ensures forall k :: ReportedSystemLabel(aks, k) ==> r[k] == aks.value[k]
    ensures forall k :: k in capz && !ReportedSystemLabel(aks, k) ==> r[k] == capz[k]
  {
    match aks
    case None => capz
    case Some(reported) => capz + map k | k in reported && IsAzureSystemNodeLabelKey(k) :: reported[k]
  }

  /** Merging again with the labels a merge produced changes nothing. */
  lemma MergeIdempotent(capz: Labels, aks: Option<Labels>)
    ensures MergeSystemNodeLabels(capz, Some(MergeSystemNodeLabels(capz, aks))) == MergeSystemNodeLabels(capz, aks)
  {
  }

  /** The comparison projection of the reported pool. */
  function ExistingProfile(existing: AgentPool): Profile {
    Profile(existing.count, existing.orchestratorVersion, existing.mode, existing.enableAutoScaling,
            existing.minCount, existing.maxCount, existing.nodeLabels, existing.nodeTaints)
  }

  /** The comparison projection of the desired pool. With autoscaling on, the count is the
      reported one; the taints are always the reported ones. */
  function NormalizedProfile(s: AgentPoolSpec, existing: AgentPool): Profile {
    var count := if s.enableAutoScaling.GetOr(false) then existing.count else Some(s.replicas);
    Profile(count, s.version, s.mode, s.enableAutoScaling, s.minCount, s.maxCount, s.nodeLabels,
            existing.nodeTaints)
  }

  /** The reported pool already matches the desired one, field by field, on everything
      except the labels: count (unless autoscaling is on), version, mode, autoscaling flag,
      minimum and maximum count. Taints are not among them. */
  predicate InSyncExceptLabels(s: AgentPoolSpec, existing: AgentPool) {
    && (s.enableAutoScaling.GetOr(false) || existing.count == Some(s.replicas))
    && existing.orchestratorVersion == s.version
    && existing.mode == s.mode
    && existing.enableAutoScaling == s.enableAutoScaling
    && existing.minCount == s.minCount
    && existing.maxCount == s.maxCount
  }

  /** The reported pool matches the desired one, the labels included (a nil and an empty
      label map differ). */
  predicate InSync(s: AgentPoolSpec, existing: AgentPool) {
    InSyncExceptLabels(s, existing) && existing.nodeLabels == s.nodeLabels
  }

  /** The diff of the two projections is empty exactly when the pools are in sync. */
  lemma ProfilesEqualIffInSync(s: AgentPoolSpec, existing: AgentPool)
    ensures NormalizedProfile(s, existing) == ExistingProfile(existing) <==> InSync(s, existing)
  {
  }

  /** The payload for the desired pool carrying `labels`: zero values become absent fields. */
  function BuildPayload(s: AgentPoolSpec, labels: Option<Labels>): (p: AgentPoolParams)
    ensures p.count.None? <==> s.replicas <= 0
    ensures p.count.Some? ==> p.count.value == s.replicas
    ensures p.availabilityZones.None? <==> |s.availabilityZones| == 0
    ensures p.availabilityZones.Some? ==> p.availabilityZones.value == s.availabilityZones
    ensures p.nodeTaints.None? <==> |s.nodeTaints| == 0
    ensures p.nodeTaints.Some? ==> p.nodeTaints.value == s.nodeTaints
    ensures p.vmSize.None? <==> s.sku == ""
    ensures p.vmSize.Some? ==> p.vmSize.value == s.sku
    ensures p.vnetSubnetID.None? <==> s.vnetSubnetID == ""
    ensures p.vnetSubnetID.Some? ==> p.vnetSubnetID.value == s.vnetSubnetID
    ensures p.osDiskSizeGB == Some(s.osDiskSizeGB)
    ensures p.nodeLabels == labels
    ensures p.poolType == VirtualMachineScaleSets
    ensures p.osDiskType == s.osDiskType.GetOr("") && p.osType == s.osType.GetOr("")
    ensures p.scaleSetPriority == s.scaleSetPriority.GetOr("")
    ensures && p.enableAutoScaling == s.enableAutoScaling && p.enableUltraSSD == s.enableUltraSSD
            && p.maxCount == s.maxCount && p.maxPods == s.maxPods && p.minCount == s.minCount
            && p.mode == s.mode && p.orchestratorVersion == s.version
            && p.enableNodePublicIP == s.enableNodePublicIP && p.nodePublicIPPrefixID == s.nodePublicIPPrefixID
  {
    AgentPoolParams(
      availabilityZones := if |s.availabilityZones| > 0 then Some(s.availabilityZones) else None,
      count := if s.replicas > 0 then Some(s.replicas) else None,
      enableAutoScaling := s.enableAutoScaling,
      enableUltraSSD := s.enableUltraSSD,
      maxCount := s.maxCount,
      maxPods := s.maxPods,
      minCount := s.minCount,
      mode := s.mode,
      nodeLabels := labels,
      nodeTaints := if |s.nodeTaints| > 0 then Some(s.nodeTaints) else None,
      orchestratorVersion := s.version,
      osDiskSizeGB := Some(s.osDiskSizeGB),
      osDiskType := s.osDiskType.GetOr(""),
      osType := s.osType.GetOr(""),
      scaleSetPriority := s.scaleSetPriority.GetOr(""),
      poolType := VirtualMachineScaleSets,
      vmSize := if s.sku != "" then Some(s.sku) else None,
      vnetSubnetID := if s.vnetSubnetID != "" then Some(s.vnetSubnetID) else None,
      enableNodePublicIP := s.enableNodePublicIP,
      nodePublicIPPrefixID := s.nodePublicIPPrefixID)
  }

  /** Two desired pools agree on everything the payload carries, once a nil pointer and
      its zero value, and all non-positive replica counts, are taken as the same. */
  predicate SamePayloadFields(s1: AgentPoolSpec, s2: AgentPoolSpec) {
    && s1.availabilityZones == s2.availabilityZones
    && (s1.replicas == s2.replicas || (s1.replicas <= 0 && s2.replicas <= 0))
    && s1.nodeTaints == s2.nodeTaints
    && s1.sku == s2.sku
    && s1.vnetSubnetID == s2.vnetSubnetID
    && s1.osDiskSizeGB == s2.osDiskSizeGB
    && s1.osDiskType.GetOr("") == s2.osDiskType.GetOr("")
    && s1.osType.GetOr("") == s2.osType.GetOr("")
    && s1.scaleSetPriority.GetOr("") == s2.scaleSetPriority.GetOr("")
    && s1.enableAutoScaling == s2.enableAutoScaling
    && s1.enableUltraSSD == s2.enableUltraSSD
    && s1.maxCount == s2.maxCount
    && s1.maxPods == s2.maxPods
    && s1.minCount == s2.minCount
    && s1.mode == s2.mode
    && s1.version == s2.version
    && s1.enableNodePublicIP == s2.enableNodePublicIP
    && s1.nodePublicIPPrefixID == s2.nodePublicIPPrefixID
  }

  /** The payload loses exactly the distinctions `SamePayloadFields` ignores. */
  lemma PayloadDeterminesFields(s1: AgentPoolSpec, s2: AgentPoolSpec, labels: Option<Labels>)
    ensures BuildPayload(s1, labels) == BuildPayload(s2, labels) <==> SamePayloadFields(s1, s2)
  {
  }

  /** AgentPoolSpec.Parameters: the update gate, the diff and the payload. */
  function Parameters(s: AgentPoolSpec, existing: Option<AgentPool>): (r: ParametersResult)
    ensures existing.None? ==> r.Put? && r.payload.nodeLabels == s.nodeLabels
    ensures existing.Some? && !IsTerminal(existing.value.provisioningState) ==>
      r == Fail(Transient(NonTerminalMessage + existing.value.provisioningState, NonTerminalRetrySeconds))
    ensures r.Fail? ==> existing.Some? && !IsTerminal(existing.value.provisioningState)
    ensures r == NoChange <==> existing.Some? && IsTerminal(existing.value.provisioningState)
                                && InSync(s, existing.value)
    ensures r.Put? ==> r.payload == BuildPayload(s, r.payload.nodeLabels)
    ensures r.Put? && existing.Some? && s.nodeLabels.Some? ==>
      r.payload.nodeLabels == Some(MergeSystemNodeLabels(s.nodeLabels.value, existing.value.nodeLabels))
    ensures r.Put? && s.nodeLabels.None? ==> r.payload.nodeLabels.None?
  {
    match existing
    case None => Put(BuildPayload(s, s.nodeLabels))
    case Some(pool) =>
      if !IsTerminal(pool.provisioningState) then
        Fail(Transient(NonTerminalMessage + pool.provisioningState, NonTerminalRetrySeconds))
      else if NormalizedProfile(s, pool) == ExistingProfile(pool) then
        NoChange
      else
        var labels := if s.nodeLabels.Some? then Some(MergeSystemNodeLabels(s.nodeLabels.value, pool.nodeLabels))
                      else s.nodeLabels;
        Put(BuildPayload(s, labels))
  }

  /** Neither the desired nor the reported taints can make a terminal pool need an update. */
  lemma TaintsNeverTriggerUpdate(s: AgentPoolSpec, existing: AgentPool, specTaints: seq<string>,
                                 reportedTaints: Option<seq<string>>)
    ensures Parameters(s, Some(existing)) == NoChange
        <==> Parameters(s.(nodeTaints := specTaints), Some(existing.(nodeTaints := reportedTaints))) == NoChange
  {
  }

  /** With autoscaling on, neither the desired replica count nor the reported count can
      make a pool need an update. */
  lemma AutoscalingIgnoresCount(s: AgentPoolSpec, existing: AgentPool, replicas: int32, count: Option<int32>)
    requires s.enableAutoScaling == Some(true)
    ensures Parameters(s, Some(existing)) == NoChange
        <==> Parameters(s.(replicas := replicas), Some(existing.(count := count))) == NoChange
  {
  }

  /** The identity accessors' fields play no part in the parameters. */
  lemma IdentityIgnoredByParameters(s: AgentPoolSpec, existing: Option<AgentPool>, name: string,
                                    resourceGroup: string, cluster: string, headers: map<string, string>)
    ensures Parameters(s.(name := name, resourceGroup := resourceGroup, cluster := cluster, headers := headers), existing)
         == Parameters(s, existing)
  {
  }

  // ----- The label diff as written, and with the merge before the diff -----

  /** The labels an update sends: the desired ones merged with the reported system labels,
      or nil when the desired labels are nil. */
  function UpdateLabels(s: AgentPoolSpec, existing: AgentPool): (l: Option<Labels>)
    ensures l.None? <==> s.nodeLabels.None?
  {
    if s.nodeLabels.Some? then Some(MergeSystemNodeLabels(s.nodeLabels.value, existing.nodeLabels)) else None
  }

  /** As written, the diff uses the desired labels before the merge. A pool that already
      carries exactly the labels an update would send, plus a system label the desired
      labels lack, is still sent that same update, on every call. */
  lemma AsWrittenResendsSameLabels(s: AgentPoolSpec, existing: AgentPool, key: string)
    requires IsTerminal(existing.provisioningState) && InSyncExceptLabels(s, existing)
    requires s.nodeLabels.Some? && key !in s.nodeLabels.value && ReportedSystemLabel(existing.nodeLabels, key)
    requires existing.nodeLabels == UpdateLabels(s, existing)
    ensures Parameters(s, Some(existing)).Put?
    ensures Parameters(s, Some(existing)).payload.nodeLabels == existing.nodeLabels
  {
  }

  /** Parameters with the system labels merged into the desired labels before the diff, so
      that labels AKS adds do not count as a difference. */
  function ParametersMergeBeforeDiff(s: AgentPoolSpec, existing: Option<AgentPool>): (r: ParametersResult)
    ensures existing.None? ==> r == Parameters(s, existing)
    ensures existing.Some? && !IsTerminal(existing.value.provisioningState) ==> r == Parameters(s, existing)
    ensures r == NoChange <==>
      existing.Some? && IsTerminal(existing.value.provisioningState)
      && InSyncExceptLabels(s, existing.value) && existing.value.nodeLabels == UpdateLabels(s, existing.value)
    ensures r.Put? ==> r.payload == BuildPayload(s, r.payload.nodeLabels)
    ensures r.Put? && existing.Some? ==> r.payload.nodeLabels == UpdateLabels(s, existing.value)
  {
    match existing
    case None => Put(BuildPayload(s, s.nodeLabels))
    case Some(pool) =>
      if !IsTerminal(pool.provisioningState) then
        Fail(Transient(NonTerminalMessage + pool.provisioningState, NonTerminalRetrySeconds))
      else
        var labels := UpdateLabels(s, pool);
        var desired := NormalizedProfile(s, pool).(nodeLabels := labels);
        if desired == ExistingProfile(pool) then NoChange
        else Put(BuildPayload(s, labels))
  }

  /** With the merge before the diff, once the pool carries the labels an update sent, the
      labels never ask for another update: the pool is then in sync exactly when the other
      compared fields are. */
  lemma MergeBeforeDiffSettlesLabels(s: AgentPoolSpec, existing: AgentPool)
    requires IsTerminal(existing.provisioningState)
    requires ParametersMergeBeforeDiff(s, Some(existing)).Put?
    ensures var sent := ParametersMergeBeforeDiff(s, Some(existing)).payload.nodeLabels;
      ParametersMergeBeforeDiff(s, Some(existing.(nodeLabels := sent))) == NoChange
      <==> InSyncExceptLabels(s, existing)
  {
    var sent := UpdateLabels(s, existing);
    var after := existing.(nodeLabels := sent);
    if s.nodeLabels.Some? {
      MergeIdempotent(s.nodeLabels.value, existing.nodeLabels);
    }
    assert UpdateLabels(s, after) == sent;
  }

  /** On the same pool as `AsWrittenResendsSameLabels`, the merge-before-diff version
      reports no change. */
  lemma MergeBeforeDiffStopsResending(s: AgentPoolSpec, existing: AgentPool)
    requires IsTerminal(existing.provisioningState) && InSyncExceptLabels(s, existing)
    requires existing.nodeLabels == UpdateLabels(s, existing)
    ensures ParametersMergeBeforeDiff(s, Some(existing)) == NoChange
  {
  }
}
