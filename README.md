# EMR containers virtual cluster resource, modelled in Dafny

This project models the logic of the Terraform AWS provider's
`aws_emrcontainers_virtual_cluster` resource
(`internal/service/emrcontainers/virtual_cluster.go`). It covers:

- **Schema translation** (`schema.dfy`, module `Schema`). The engine's attribute tree becomes
  the nested `ContainerProvider{Id, Type, Info{EksInfo{Namespace}}}` struct (expand), and
  the struct becomes the tree again (flatten). A nested block is a list of at most one
  map. Go pointers are `Option`s. A Go type assertion that would panic is an explicit
  `Err(Panic)` result.
- **Name validation** (`name_pattern.dfy`, module `NamePattern`). This is the
  `[.\-_/#A-Za-z0-9]+` pattern on `name`. It is unanchored, so it is defined both by a
  character scan and by regular-expression semantics.
- **Describe and status classification** (`status.dfy`, module `Status`). This covers
  `findVirtualClusterById`, `statusVirtualCluster` and the two wait configurations.
- **The create, read and delete handlers** (`resource.dfy`, module `Resource`).
  `ResourceData` is a class whose `id` and `attrs` the handlers update through
  `SetId` and `Set`. The remote service is a `Client` class that logs every call
  issued to it (create, describe, delete, wait). What each remote call returned is a
  parameter of the handler. Each handler is proved against pure decision functions
  (`ReadOutcomeOf`, `AttrsAfterRead`, `DeleteResult`, …).

Modelling choices:

- A `*string` stored into the tree by flatten is read by expand as the string it points
  to (`FromPointer`). A nil pointer is stored as `Null`.
- `d.Get` on an unset string or list attribute reads as `""` or `[]`.
- `CreatedAt` is held as its already-rendered text. Only the nil case is rendered
  explicitly, as Go's zero time `0001-01-01 00:00:00 +0000 UTC`.
- Durations are Go `time.Duration` values in nanoseconds.
- `Read` is told through a parameter whether `d.Set("container_provider", …)` failed,
  because that depends on the engine's schema handling. Such a failure is a `SetFailed`
  error naming the attribute, not a service error. When it fails, `arn` has already been set.
- `Create` does not set the "new resource" flag. The engine marks a resource as new
  before it calls Create, and the read that follows uses that flag.

## Model

| member | source | states |
|---|---|---|
| Schema.ExpandEksInfo | internal/service/emrcontainers/virtual_cluster.go:216-230 | nil exactly for an empty list or a nil first element; namespace set exactly when the key is present, holding that string |
| Schema.ExpandContainerInfo | internal/service/emrcontainers/virtual_cluster.go:200-214 | nil exactly for an empty list or nil first element; EksInfo set only when the `eks_info` key is present, and whenever that key is present EksInfo is the expansion of its list |
| Schema.ExpandContainerProvider | internal/service/emrcontainers/virtual_cluster.go:181-198 | nil exactly for an empty list or nil first element; Id and Type are always set from the map's strings; Info is set only when the `info` key is present, and whenever that key is present Info is the expansion of its list |
| Schema.FlattenEksInfo | internal/service/emrcontainers/virtual_cluster.go:263-275 | empty list exactly for nil; otherwise one map whose only possible key `namespace` is present exactly when the pointer is set |
| Schema.FlattenContainerInfo | internal/service/emrcontainers/virtual_cluster.go:249-261 | empty list exactly for nil; otherwise one map holding `eks_info` exactly when EksInfo is set |
| Schema.FlattenContainerProvider | internal/service/emrcontainers/virtual_cluster.go:232-247 | empty list exactly for nil; otherwise one map with `id`, `type`, and `info` exactly when Info is set |
| Schema.ExpandFlattenEksInfo | internal/service/emrcontainers/virtual_cluster.go:216-275 | expand(flatten(e)) == e for every EksInfo pointer |
| Schema.ExpandFlattenContainerInfo | internal/service/emrcontainers/virtual_cluster.go:200-261 | expand(flatten(c)) == c for every ContainerInfo pointer |
| Schema.ExpandFlattenContainerProvider | internal/service/emrcontainers/virtual_cluster.go:181-247 | expand(flatten(p)) == p for every provider pointer whose Id and Type are set; absence is kept at every level |
| Schema.ExpandFlattenNilPointer | internal/service/emrcontainers/virtual_cluster.go:189-190 | with a nil `*string` stored as `Null` (the model's rendering, see `FromPointer`), a provider with a nil Id or Type does not survive the round trip: expand's string assertion fails |
| Schema.FlattenExpandEksInfo | internal/service/emrcontainers/virtual_cluster.go:216-275 | a canonical eks_info list expands and flattens back to itself |
| Schema.FlattenExpandContainerInfo | internal/service/emrcontainers/virtual_cluster.go:200-261 | a canonical info list expands and flattens back to itself |
| Schema.FlattenExpandContainerProvider | internal/service/emrcontainers/virtual_cluster.go:181-247 | a canonical container_provider list expands and flattens back to itself |
| Schema.FlattenIsCanonical | internal/service/emrcontainers/virtual_cluster.go:232-275 | flatten's output is canonical for every provider whose Id and Type are set, so canonical lists are exactly the image of flatten on such providers |
| Schema.FlattenExpandNotIdentity | internal/service/emrcontainers/virtual_cluster.go:182-246 | the asymmetry: `[nil]` expands to nil and nil flattens to `[]`; an `info: []` block expands to a nil Info and is dropped on flatten |
| Schema.ExpandNamespaceVerbatim | internal/service/emrcontainers/virtual_cluster.go:225-227 | a present namespace is copied verbatim, the empty string included |
| NamePattern.NameAccepted | internal/service/emrcontainers/virtual_cluster.go:92 | the name is accepted exactly when it contains at least one character of `[.\-_/#A-Za-z0-9]` |
| NamePattern.NameAcceptedIffPatternMatches | internal/service/emrcontainers/virtual_cluster.go:92 | that scan agrees with "some substring matches the unanchored pattern" |
| NamePattern.AsWrittenAcceptsSpace | internal/service/emrcontainers/virtual_cluster.go:92 | "my cluster" is accepted although it does not match the pattern as a whole |
| NamePattern.AsWrittenRejects | internal/service/emrcontainers/virtual_cluster.go:92 | "", " " and "@@" are rejected |
| NamePattern.NameAcceptedAnchored | internal/service/emrcontainers/virtual_cluster.go:92 | corrected check: accepted exactly when non-empty and every character is allowed |
| NamePattern.NameAcceptedAnchoredIffWholeMatch | internal/service/emrcontainers/virtual_cluster.go:92 | the corrected check is whole-string matching of the pattern and is stricter than the one as written |
| NamePattern.AnchoredRejectsSpace | internal/service/emrcontainers/virtual_cluster.go:92 | the corrected check rejects "my cluster" and accepts "my-cluster_01" |
| Status.IsNotFound | internal/service/emrcontainers/virtual_cluster.go:306 | true only for an error, and for an error exactly when its code is ResourceNotFoundException; the same test as the message-contains-"" checks at lines 131 and 165 |
| Status.FindVirtualClusterById | internal/service/emrcontainers/virtual_cluster.go:279-294 | an error comes back exactly on a failed describe, and never with a cluster; a cluster comes back exactly when the output holds one |
| Status.StatusVirtualCluster | internal/service/emrcontainers/virtual_cluster.go:302-320 | not-found yields (nil, "NotFound", nil); any other error yields (nil, "Unknown", err); no cluster yields (nil, "NotFound", nil); a cluster yields itself and its literal state |
| Status.Probe | internal/service/emrcontainers/virtual_cluster.go:303-319 | the refresh closure: an error only for a failed describe other than not-found; the object is the described cluster, if any; NotFound when there is neither; otherwise the cluster's state |
| Status.ProbeClassification | internal/service/emrcontainers/virtual_cluster.go:284-318 | the four describe outcomes and their classification, as a table |
| Status.CreatedWaitConf | internal/service/emrcontainers/virtual_cluster.go:336-342 | no pending states, target RUNNING, a 1-minute delay and a 90-minute timeout |
| Status.DeletedWaitConf | internal/service/emrcontainers/virtual_cluster.go:355-361 | pending TERMINATING, target TERMINATED, a 1-minute delay and a 90-minute timeout |
| Status.TargetOnlyFromCluster | internal/service/emrcontainers/virtual_cluster.go:335-370 | for both wait configurations, a target status comes only from a described cluster in exactly that state, with no error |
| Status.NilStateIsNoTarget | internal/service/emrcontainers/virtual_cluster.go:318 | a nil cluster state reads as "", which is neither a target of either wait nor pending for deletion |
| Resource.ReadOutcomeOf | internal/service/emrcontainers/virtual_cluster.go:130-144 | forget the resource on not-found when not new, or on no cluster; an error for any other error or for not-found on a new resource; otherwise read back the cluster |
| Resource.CreatedAtText | internal/service/emrcontainers/virtual_cluster.go:150 | a set timestamp keeps its text; a nil one renders as Go's zero time |
| Resource.IdAfterRead | internal/service/emrcontainers/virtual_cluster.go:133-142 | the id is cleared exactly when the resource is forgotten, and kept otherwise |
| Resource.AttrsAfterRead | internal/service/emrcontainers/virtual_cluster.go:146-152 | no attribute changes unless the cluster was found; if setting container_provider fails, only arn is set; otherwise arn, container_provider (flattened), created_at, name and state are set and nothing else changes |
| Resource.ErrAfterRead | internal/service/emrcontainers/virtual_cluster.go:130-154 | read succeeds exactly when the resource is forgotten or fully read back |
| Resource.ReadFollowsProbe | internal/service/emrcontainers/virtual_cluster.go:128-144 | in steady state, read forgets, fails or reads back exactly as the status probe reports no cluster, an error, or a cluster |
| Resource.NewResourceNotFoundFails | internal/service/emrcontainers/virtual_cluster.go:131 | not-found right after creation is a read error, whereas in steady state it forgets the resource |
| Resource.CreateThenReadKeepsProvider | internal/service/emrcontainers/virtual_cluster.go:106-151 | when the service reports back the provider and name that create sent, the read-back container_provider equals the configured canonical one and the read-back name equals the configured name |
| Resource.CreateThenRead | internal/service/emrcontainers/virtual_cluster.go:102-155 | running Create when the service creates, the wait succeeds and the describe echoes what was sent: no error, the new id, and the configured container_provider and name stored |
| Resource.DeleteCalls | internal/service/emrcontainers/virtual_cluster.go:161-172 | delete issues one delete call, then the termination wait exactly when that call succeeded, and nothing else |
| Resource.DeleteResult | internal/service/emrcontainers/virtual_cluster.go:164-178 | not-found is success; any other delete error is surfaced; after a successful delete the result is the wait's error, if any |
| Resource.DeleteIdempotent | internal/service/emrcontainers/virtual_cluster.go:164-167 | deleting a cluster that is already gone succeeds and issues no wait |
| Resource.ResourceData.Read | internal/service/emrcontainers/virtual_cluster.go:125-155 | logs one describe of the old id; the new id, attributes and error are those of the read decision functions |
| Resource.ResourceData.Delete | internal/service/emrcontainers/virtual_cluster.go:157-179 | logs the delete, then the wait only after a successful delete; returns DeleteResult; leaves the resource data unchanged |
| Resource.ResourceData.Create | internal/service/emrcontainers/virtual_cluster.go:102-123 | an expand panic issues nothing; a create error changes nothing locally; a wait error keeps the new id assigned; otherwise it ends as the read of the new id |

## Left out

- The remote calls `CreateVirtualCluster`, `DescribeVirtualCluster` and `DeleteVirtualCluster` are network I/O. Only their results are modelled, as handler parameters.
- The polling loop `resource.StateChangeConf.WaitForState` belongs to a library that is not part of this model and is driven by time and sleeps. Its result is a parameter. That result is either success or a `WaitError`: a timeout, an unexpected state, not found, or a failed refresh. Its configuration is recorded as data (`CreatedWaitConf`, `DeletedWaitConf`). How the loop arrives at a given result is not modelled.
- Schema registration (`ResourceVirtualCluster`, `ForceNew`, `MaxItems`, `Required`) and `ImportStatePassthrough` are framework wiring and are left out.
- The `StringInSlice` check on `type` is left out, because its allowed values come from the SDK.
- Logging, the wording of wrapped error messages and the formatting of non-nil timestamps are left out. Errors keep their step and their cause.
- `d.Set` errors on `arn`, `created_at`, `name` and `state` are ignored by the code, so these sets always succeed in the model.
- How the engine normalises a `*string` inside a map is not modelled. A set pointer is read back as its string, and a nil one as `Null`.

## Findings

| source | as written | input that shows it | evidently intended | confidence | as-written member | corrected member |
|---|---|---|---|---|---|---|
| internal/service/emrcontainers/virtual_cluster.go:92 | the unanchored pattern `[.\-_/#A-Za-z0-9]+` accepts any name that holds one allowed character | `"my cluster"` is accepted, although its space is outside the class | a rule on the characters a name may use, that is the anchored `^[.\-_/#A-Za-z0-9]+$`; as a substring search the character class constrains nothing once one allowed character is present | medium, not executed | NamePattern.AsWrittenAcceptsSpace | NamePattern.NameAcceptedAnchored |

The handlers do not call the name check: the engine runs it. So no other member depends on which of the two checks is used.
