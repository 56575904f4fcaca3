# Virtual-machine and agent-pool services of the Azure Cluster API provider, in Dafny

This project models the pure decision logic of two services of the Kubernetes Cluster
API provider for Azure, and proves properties of it:

- **Virtual machines** (`cloud/services/virtualmachines/virtualmachines.go`). The project models:
  - image resolution: an explicit image ID wins, then a Shared Image Gallery resource ID
    built from five coordinates, then a Marketplace publisher/offer/SKU/version
    reference, each with the source's exact error texts;
  - the storage profile that wraps the resolved image;
  - how `Delete` classifies the Azure client's errors ("already gone" counts as success;
    submission and wait failures are wrapped with context; the result's error is returned
    as is);
  - `GenerateRandomString`, which encodes n random bytes as padded base64url text.
- **Agent pools** (`azure/services/agentpools/spec.go`). The project models:
  - the identity accessors of `AgentPoolSpec`;
  - `Parameters`, which refuses to touch a pool that is not in a terminal provisioning
    state (a transient error with a 20-second retry);
  - the comparison of a normalised projection of the desired pool against the reported
    pool, which returns "no change" or a create-or-update payload;
  - `mergeSystemNodeLabels`, which keeps the `kubernetes.azure.com` labels AKS itself
    adds.

Modules:

- `Common` (common.dfy): Go nil pointers as `Option`, `(value, error)` pairs as `Result`,
  and the error values (plain, transient with a retry hint, remote with a not-found flag,
  wrapped with context).
- `Base64Url` (base64url.dfy): base64 with the URL- and filename-safe alphabet and
  padding, section 5 of RFC 4648. Go's `base64.URLEncoding` implements it. The module
  holds the encoder (recursive and as a loop), a canonical decoder (section 3.5 of
  RFC 4648: non-zero discarded bits are rejected), and both round trips.
- `ResourcePaths` (resource_paths.dfy): `Split` and `Join` of '/'-separated Azure
  resource IDs. They are inverse to each other whenever no segment holds a '/'. `Split`
  reads the coordinates back out of a generated gallery ID; `Join` shows that the gallery
  ID is exactly its thirteen segments put back together, so `Split` loses nothing.
- `VirtualMachines` (virtual_machines.dfy) and `AgentPools` (agent_pools.dfy): the two
  services.

External calls become inputs:

- The Azure client's answers to the three steps of a delete are a `DeleteCalls` value.
- The outcome of `crypto/rand.Read` is a `RandomRead` value.
- `azure.GenerateOSDiskName` is a function parameter.
- `azure.ResourceNotFound` is a flag carried by a remote error.

## Model

| member | source | states |
|---|---|---|
| `VirtualMachines.GenerateSIGImageID` | cloud/services/virtualmachines/virtualmachines.go:262-280 | succeeds exactly when all five gallery coordinates are set, with the gallery resource ID built from them; otherwise the error names the first nil coordinate in validation order (subscription ID, resource group, gallery, name, version) |
| `VirtualMachines.SIGImageIDCoordinates` | cloud/services/virtualmachines/virtualmachines.go:279 | a generated gallery ID has thirteen '/'-separated segments, and the subscription, resource group, gallery, image name and version sit at segments 2, 4, 8, 10 and 12, provided none of them contains '/' |
| `VirtualMachines.GalleryImagePathSegments` | cloud/services/virtualmachines/virtualmachines.go:279 | the formatted gallery path splits into the fixed resource-ID words with the five coordinates in their slots |
| `VirtualMachines.GalleryImagePathIsJoin` | cloud/services/virtualmachines/virtualmachines.go:279 | the formatted gallery path is exactly the thirteen segments joined with '/', so nothing of it is lost when it is split |
| `VirtualMachines.GenerateImagePlan` | cloud/services/virtualmachines/virtualmachines.go:283-304 | succeeds exactly when publisher, offer, SKU and version are all set, with a reference that carries exactly those four and no ID; otherwise the error names the first nil field in the order publisher, offer, SKU, version |
| `VirtualMachines.GenerateImageReference` | cloud/services/virtualmachines/virtualmachines.go:241-259 | the reference is either an ID alone or a Marketplace quadruple without an ID; an explicit ID is used as is; otherwise a complete gallery descriptor yields its gallery ID; otherwise the result is exactly the Marketplace outcome, so a gallery error is never reported |
| `VirtualMachines.GenerateStorageProfile` | cloud/services/virtualmachines/virtualmachines.go:216-238 | fails exactly when image resolution fails, with the same error; on success the OS disk carries the generated name, the spec's OS type, size and storage account type, and create option "FromImage", and the image reference is the resolved one |
| `VirtualMachines.Delete` | cloud/services/virtualmachines/virtualmachines.go:189-213 | returns no error exactly when the submission reported not-found or no step failed; other submission errors are wrapped with the VM and resource group; wait errors are wrapped with "cannot delete, future response"; the wrapped errors print as that context, ": " and the cause's text; otherwise the result's own error is returned unwrapped |
| `VirtualMachines.GenerateRandomString` | cloud/services/virtualmachines/virtualmachines.go:311-319 | a failed random read yields "" and that error; otherwise no error and a string of length 4·⌈n/3⌉ over the URL-safe alphabet plus '=' that decodes back to exactly the random bytes |
| `Base64Url.ValueOf` | cloud/services/virtualmachines/virtualmachines.go:318 | a character has a sextet value exactly when it is in the URL-safe alphabet, and encoding that value gives the character back |
| `Base64Url.Encode` | cloud/services/virtualmachines/virtualmachines.go:318 | the padded encoding of n bytes has 4·⌈n/3⌉ characters |
| `Base64Url.EncodeAlphabet` | cloud/services/virtualmachines/virtualmachines.go:318 | every encoded character is URL-safe or '=', and '=' occurs only in the last two positions |
| `Base64Url.DecodeEncode` | cloud/services/virtualmachines/virtualmachines.go:318 | decoding an encoding gives back the original bytes |
| `Base64Url.EncodeDecode` | cloud/services/virtualmachines/virtualmachines.go:318 | every text the decoder accepts is the encoding of what it decodes to, so the decoder is canonical |
| `Base64Url.EncodeToString` | cloud/services/virtualmachines/virtualmachines.go:318 | the quantum-by-quantum loop produces exactly the padded encoding |
| `ResourcePaths.Split` | cloud/services/virtualmachines/virtualmachines.go:279 | the segments of a path are never empty as a list and hold no '/' |
| `ResourcePaths.SplitJoin` | cloud/services/virtualmachines/virtualmachines.go:279 | splitting a joined list of '/'-free segments gives back the list |
| `ResourcePaths.JoinSplit` | cloud/services/virtualmachines/virtualmachines.go:279 | joining the segments of any path gives back the path |
| `AgentPools.AgentPoolSpec.ResourceName` | azure/services/agentpools/spec.go:104-107 | the resource name is the pool's name |
| `AgentPools.AgentPoolSpec.ResourceGroupName` | azure/services/agentpools/spec.go:109-112 | the resource group is the cluster's resource group |
| `AgentPools.AgentPoolSpec.OwnerResourceName` | azure/services/agentpools/spec.go:114-117 | the owner is the managed cluster |
| `AgentPools.AgentPoolSpec.CustomHeaders` | azure/services/agentpools/spec.go:119-122 | the custom headers are the spec's headers |
| `AgentPools.MergeSystemNodeLabels` | azure/services/agentpools/spec.go:235-246 | the merged keys are the desired keys plus the reported `kubernetes.azure.com` keys; reported system labels take the reported value; every other desired label keeps its value; no other reported label is added |
| `AgentPools.MergeIdempotent` | azure/services/agentpools/spec.go:237-246 | merging with the result of a merge changes nothing |
| `AgentPools.ProfilesEqualIffInSync` | azure/services/agentpools/spec.go:140-176 | the normalised and reported projections are equal exactly when count (unless autoscaling), version, mode, autoscaling flag, min and max count and labels agree; taints never differ |
| `AgentPools.BuildPayload` | azure/services/agentpools/spec.go:188-232 | count, zones, taints, VM size and subnet are absent exactly when the spec holds zero or empty values there, and carry the spec's values otherwise; the disk size is always present; nil OS disk type, OS type and priority become ""; the pool type is always a scale set; every other field passes through |
| `AgentPools.PayloadDeterminesFields` | azure/services/agentpools/spec.go:188-232 | two specs give the same payload exactly when they agree on every carried field, up to nil vs zero string and among non-positive replica counts |
| `AgentPools.Parameters` | azure/services/agentpools/spec.go:125-233 | a missing pool always gets a payload with the spec's labels; a pool in a non-terminal state gets the transient error with the state in its text and a 20-second retry, and that is the only failure; a terminal pool gets no change exactly when it is in sync; every payload is the spec's payload, with merged labels when the spec has labels and nil labels when it has none |
| `AgentPools.TaintsNeverTriggerUpdate` | azure/services/agentpools/spec.go:163 | changing the desired or the reported taints never changes whether an update is needed |
| `AgentPools.AutoscalingIgnoresCount` | azure/services/agentpools/spec.go:167-172 | with autoscaling on, neither the desired replicas nor the reported count affect whether an update is needed |
| `AgentPools.IdentityIgnoredByParameters` | azure/services/agentpools/spec.go:125-233 | name, resource group, cluster and headers do not affect the parameters |
| `AgentPools.UpdateLabels` | azure/services/agentpools/spec.go:183-185 | the labels an update sends are nil exactly when the desired labels are nil |
| `AgentPools.AsWrittenResendsSameLabels` | azure/services/agentpools/spec.go:174-185 | a terminal pool that already carries exactly the labels an update would send, plus a system label the spec lacks, still gets an update, and its payload labels equal the labels the pool already has |
| `AgentPools.ParametersMergeBeforeDiff` | azure/services/agentpools/spec.go:125-233 | the same gate and payload as `Parameters`, but the labels are compared after the merge: no change exactly when the other compared fields agree and the pool already has the merged labels |
| `AgentPools.MergeBeforeDiffSettlesLabels` | azure/services/agentpools/spec.go:174-185 | after a pool takes the labels an update sent, the labels never ask for another update |
| `AgentPools.MergeBeforeDiffStopsResending` | azure/services/agentpools/spec.go:174-185 | on the pools where the code as written resends the same labels, the corrected version reports no change |

## Left out

- `Get` and `Reconcile` of the VM service: they wrap the client calls (`Client.Get`, `Client.CreateOrUpdate`), the network-interface lookup, RSA/SSH key generation (`crypto/rsa`, `golang.org/x/crypto/ssh`) and the assembly of the VM payload (tags, OS profile, network profile, zone). Only the storage profile and `GenerateRandomString` they use are modelled.
- The `interface{}` type assertions at the top of `Delete` and `Parameters`. These two errors ("invalid vm Specification" and "%T is not a containerservice.AgentPool") are not modelled: the typed model makes them unreachable.
- Logging (`klog`).
- `VirtualMachines.GenerateRandomString`: `crypto/rand.Read` is an input. The model requires `n >= 0` because Go's `make` panics on a negative length.
- `VirtualMachines.GenerateStorageProfile`: `azure.GenerateOSDiskName` is a function parameter, because its body is not part of this model.
- `VirtualMachines.Delete`: `azure.ResourceNotFound` is read from a flag on the remote error. The HTTP status inspection behind it is not modelled.
- `AgentPools.Parameters`: the code dereferences the reported pool's embedded `ManagedClusterAgentPoolProfileProperties` pointer and its `ProvisioningState` pointer without nil checks, and panics when either is nil. The model's `AgentPool` record always has both, so it does not model those panics.
- `AgentPools.Parameters`: `cmp.Diff` is modelled as structural equality of the eight compared fields. Its textual output is not modelled. A nil map and an empty map count as different, as they do for `cmp.Diff`.
- `AgentPools.MergeSystemNodeLabels`: the Go function writes into the desired label map it was given, so the spec's own `NodeLabels` map is changed as a side effect. The model returns a fresh map and does not model that aliasing.
- `AgentPools.IsAzureSystemNodeLabelKey`: `azureutil.IsAzureSystemNodeLabelKey` is modelled as a prefix test for "kubernetes.azure.com". Its body is not part of this model.
- `AgentPools.AgentPoolSpec.CustomHeaders`: a nil header map and an empty one are the same map in the model.
- Go's `int32` fields are the bounded `int32` subset type. No arithmetic is done on them, so no wrap-around arises.

## Findings

| source | as written | input that shows it | evidently intended | confidence | as-written member | corrected member |
|---|---|---|---|---|---|---|
| azure/services/agentpools/spec.go:174-185 | the labels are diffed before the reported `kubernetes.azure.com` labels are merged in | a terminal pool in sync on every other field, whose reported labels are the desired labels plus one label whose key starts with `kubernetes.azure.com` | the system labels that are kept on update should also not count as a difference, so the reconcile settles | medium, not executed | `AgentPools.AsWrittenResendsSameLabels` | `AgentPools.ParametersMergeBeforeDiff` |

In the example pool, the diff sees the system label as a difference. The update payload
carries exactly the labels the pool already has, so the next reconcile sees the same
difference and sends the same update again, without end. `AgentPools.MergeBeforeDiffSettlesLabels`
and `AgentPools.MergeBeforeDiffStopsResending` prove that the corrected version stops
once the pool holds the merged labels.
