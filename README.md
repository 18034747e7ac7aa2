# Spectro Cloud Terraform provider: machine pools, packs and projects

A Dafny model of three pieces of the Spectro Cloud Terraform provider:

- **Libvirt cluster machine pools** (`spectrocloud/resource_cluster_libvirt.go`).
  - The update path reconciles the declared `machine_pool` set against the previous one:
    - it indexes the old pools by name;
    - it creates each pool whose name is new;
    - it updates each pool whose hash changed;
    - it deletes the names that disappeared;
    - the first error ends the pass.
  - The mappers turn a pool's configuration into the API entity (`toMachinePoolLibvirt`, `getAdditionalDisks`, `getNetworks`).
  - The create path sorts control-plane pools first.
  - `flattenMachinePoolConfigsLibvirt` writes the API's answer back into state.
- **The pack data source** (`spectrocloud/data_source_pack.go`). It builds the filter list from the configured attributes, queries the packs, and accepts exactly one match.
- **The project resource** (`spectrocloud/resource_project.go`). This covers `toProject` and the create and read operations.

The pieces of Go's standard library the mappers rely on are modelled in `GoStrings`:

- `strings.Split` and `strings.Join` on `","`;
- `strings.TrimSpace`, with `unicode.IsSpace`'s set of white space;
- `strconv.ParseInt(s, 10, 32)`;
- `fmt.Sprint` of an integer;
- the `int32(x)` conversion.

Modules:

| file | module | contents |
|---|---|---|
| `wrappers.dfy` | `Wrappers` | `Option` (Go's nil-or-value) and `Result` (value-or-error) |
| `go_strings.dfy` | `GoStrings` | the standard-library functions above and their round trips |
| `diagnostics.dfy` | `Diagnostics` | `diag.Diagnostic` and `diag.FromErr` |
| `libvirt_pools.dfy` | `LibvirtPools` | pool datatypes, expand, sort, flatten, round trips |
| `pool_reconciler.dfy` | `PoolReconciler` | the machine-pool API as an operation log, and the reconciliation pass |
| `pack_lookup.dfy` | `PackLookup` | filter construction, match classification, the data source's read |
| `project_resource.dfy` | `ProjectResource` | `toProject`, create and read of a project |

Modelling choices:

- **Configuration values.** A `machine_pool` element is a `MachinePoolState` value.
  - `getAdditionalDisks` and `getNetworks` test `attached_disks_size_gb` and `network_names` against `nil`, so both keys are an `Option` and the model keeps the `None` branch.
    - `attached_disks_size_gb` is optional in the schema; `network_names` is required.
    - The SDK hands a nested block element over as a map holding every schema key, with the zero value for a key left unset. The `None` branches are therefore not reached from a configuration.
    - An unset `attached_disks_size_gb` arrives as `Some("")`, which yields nil (`EmptyAttachedYieldsNil`).
  - An attribute read with `GetOk` counts as configured when it is not the zero value: a non-empty string, or a non-empty set.
- **The machine-pool API.** It is a `MachinePoolApi` object whose `log` records every call in order.
  - A `rejects` oracle says which call, by position in the log, the API answers with an error.
  - The pool hash (`resourceMachinePoolAwsHash`) is a parameter of the pass.
  - Go's iteration order over the leftover map is a nondeterministic choice.
  - The pass therefore reports, as ghost results:
    - the calls it issued (`issued`);
    - the order in which it visited the deleted names (`deleted`).
- **The pack API and the project API.** These are function parameters returning `Result`.
- **Pool state.** A pool in state form (`FlatMachinePool`) holds the keys flatten writes.

## Model

| member | source | states |
|---|---|---|
| PoolReconciler.ReconcileMachinePools | spectrocloud/resource_cluster_libvirt.go:492-543 | The log grows by `issued`. `issued` is a prefix of the walk's creates and updates followed by deletes of `deleted`. `deleted` has no repeats and holds only old names absent from the new set. Deletes start only after the whole walk, so a failed walk deletes nothing. The first rejected call ends the pass, and earlier calls stay issued. With no rejection, every leftover name is deleted exactly once after the whole walk. |
| PoolReconciler.IndexPools | spectrocloud/resource_cluster_libvirt.go:504-508 | The loop builds exactly `Index(olds)`: every old name maps to an old pool of that name, and a later pool of the same name replaces an earlier one. |
| PoolReconciler.Index | spectrocloud/resource_cluster_libvirt.go:504-508 | The index's keys are exactly the old names, and each key maps to an old pool carrying that name. |
| PoolReconciler.ApplyNewPools | spectrocloud/resource_cluster_libvirt.go:510-532 | The calls issued are a prefix of `WalkOps`. A rejected call is the last one, and every earlier call was accepted. With no rejection, all of `WalkOps` is issued and the map left over is the index minus every new name. |
| PoolReconciler.ApplyPool | spectrocloud/resource_cluster_libvirt.go:518-528 | One new pool's step: a create when its name is not in the map, an update when its hash differs from the mapped pool's, and no call otherwise. The call fails exactly when the API rejects it. |
| PoolReconciler.DeleteLeftovers | spectrocloud/resource_cluster_libvirt.go:534-542 | One delete per visited leftover name, with no name twice and only names of the map. The first rejection stops the loop. With no rejection, every name of the map is deleted. |
| PoolReconciler.MachinePoolApi.CreateMachinePool | spectrocloud/resource_cluster_libvirt.go:520 | Appends the create to the log. Fails exactly when the API rejects that call. |
| PoolReconciler.MachinePoolApi.UpdateMachinePool | spectrocloud/resource_cluster_libvirt.go:523 | Appends the update to the log. Fails exactly when the API rejects that call. |
| PoolReconciler.MachinePoolApi.DeleteMachinePool | spectrocloud/resource_cluster_libvirt.go:539 | Appends the delete to the log. Fails exactly when the API rejects that call. |
| PoolReconciler.Classification | spectrocloud/resource_cluster_libvirt.go:518-524 | For new pools with distinct names, both directions hold: a pool is created iff its name is not an old name, and updated iff its name is an old name and its hash differs from the old pool's. |
| PoolReconciler.WalkIsPlan | spectrocloud/resource_cluster_libvirt.go:530-531 | When the new names are distinct, removing processed names from the index changes no decision. The walk equals the plan computed against the untouched index. |
| PoolReconciler.WalkOnlyTouchesNewPools | spectrocloud/resource_cluster_libvirt.go:510-532 | The walk issues only creates and updates, and only of pools in the new set; it never deletes. |
| PoolReconciler.WalkNamesWithin | spectrocloud/resource_cluster_libvirt.go:510-532 | Every call of the walk is about a new pool's name, and the walk makes at most one call per new pool. |
| PoolReconciler.WalkNamesDistinct | spectrocloud/resource_cluster_libvirt.go:510-532 | For distinct new names, the walk makes at most one call per name, only about new names, and no more calls than there are new pools. |
| PoolReconciler.OneCallPerName | spectrocloud/resource_cluster_libvirt.go:504-542 | For new pools with distinct names: across the walk and the deletes, no name receives two calls. In particular, no name that is updated or created is also deleted. |
| PoolReconciler.CallCount | spectrocloud/resource_cluster_libvirt.go:504-542 | For new pools with distinct names, a pass that fails nowhere issues at most as many calls as there are names in the old and new sets together. |
| PoolReconciler.Idempotent | spectrocloud/resource_cluster_libvirt.go:510-542 | Reconciling a set of distinct names against itself issues no call, and leaves nothing to delete. |
| PoolReconciler.WorkerControlEdge | spectrocloud/resource_cluster_libvirt.go:504-542 | Old {worker: 2, edge: 1} and new {worker: 3, control: 1} give an update of worker, then a create of control, and a delete of exactly edge. |
| PoolReconciler.RepeatedNewName | spectrocloud/resource_cluster_libvirt.go:517-531 | The walk does not check that new names are distinct. A second new pool with an already walked name is always created, because :531 removed the name from the index. The two calls share a name exactly when the first pool was created or updated. |
| PoolReconciler.RepeatedNewNameCalls | spectrocloud/resource_cluster_libvirt.go:517-531 | Old {a: 1} and new [a: 3, a: 5] give an update of a, then a create of a. With no old pools, the two new pools get two creates, one more than the pass has names. |
| LibvirtPools.ParseDiskSizesSpec | spectrocloud/resource_cluster_libvirt.go:671-681 | The result is present iff every token parses. When present, it holds one size per token, and each size is the value of its token. |
| LibvirtPools.ParseDiskSizesRejects | spectrocloud/resource_cluster_libvirt.go:673-676 | A single token that fails to parse, wherever it stands, makes the whole result nil. |
| LibvirtPools.ParseTokens | spectrocloud/resource_cluster_libvirt.go:670-681 | The loop, which returns nil at the first token that fails to parse, computes exactly `ParseDiskSizes` of the tokens. |
| LibvirtPools.AdditionalDisks | spectrocloud/resource_cluster_libvirt.go:667-684 | No key gives an empty list. Otherwise, when present, one size per comma-separated token. |
| LibvirtPools.GetAdditionalDisks | spectrocloud/resource_cluster_libvirt.go:667-684 | The loop with its early nil return computes exactly `AdditionalDisks`. |
| LibvirtPools.EmptyAttachedYieldsNil | spectrocloud/resource_cluster_libvirt.go:670-676 | An empty `attached_disks_size_gb` is one empty token, which fails to parse, so the result is nil. |
| LibvirtPools.OutOfRangeDiskSizeYieldsNil | spectrocloud/resource_cluster_libvirt.go:672-676 | A single token above the int32 maximum, or a minus sign and a magnitude beyond the minimum, makes `getAdditionalDisks` return nil. Such a token among others gives nil too, through `ParseDiskSizesRejects`. |
| LibvirtPools.MalformedDiskSizesYieldNil | spectrocloud/resource_cluster_libvirt.go:672-676 | One malformed token (`"10, x"`) discards the well-formed ones: the result is nil. |
| LibvirtPools.DisksRoundTrip | spectrocloud/resource_cluster_libvirt.go:440-451 | A non-empty list of int32 sizes, printed and joined as flatten does, parses back to the same list. The empty list prints as "", which parses to nil. |
| LibvirtPools.Networks | spectrocloud/resource_cluster_libvirt.go:686-701 | No key gives no networks. Otherwise there is one network per comma-separated token (at least one), and every network carries the placement's network type. |
| LibvirtPools.GetNetworks | spectrocloud/resource_cluster_libvirt.go:686-701 | The loop computes exactly `Networks`: one trimmed name per token, in order. |
| LibvirtPools.NetworksRoundTrip | spectrocloud/resource_cluster_libvirt.go:686-701 | Networks of the placement's type, with trimmed, comma-free names, go through flatten and back through `getNetworks` unchanged. A placement with no networks is written as "" and comes back as one network with an empty name. |
| LibvirtPools.ToMachinePoolFields | spectrocloud/resource_cluster_libvirt.go:608-665 | The labels are exactly `["master"]` for a control plane and `[]` otherwise. The flags, name and update strategy are copied. The size equals the count when it fits in an int32. There is one placement per configured placement, with its networks. The disks are `AdditionalDisks` of the instance type. |
| LibvirtPools.ToMachinePoolLibvirt | spectrocloud/resource_cluster_libvirt.go:608-665 | The label append and the placements loop compute exactly `ToMachinePool`, whose fields `ToMachinePoolFields` describes. |
| LibvirtPools.ToPlacements | spectrocloud/resource_cluster_libvirt.go:618-635 | The placements loop yields one placement per configured placement, in order, each with its networks. |
| LibvirtPools.ControlPlaneFirst | spectrocloud/resource_cluster_libvirt.go:598-600 | No control-plane pool comes after a pool that is not a control plane. |
| LibvirtPools.ControlPlaneFirstIsPermutation | spectrocloud/resource_cluster_libvirt.go:598-600 | The sort neither drops nor duplicates a pool (equal multisets). |
| LibvirtPools.WorkersKeepOrder | spectrocloud/resource_cluster_libvirt.go:598-600 | Pools that are not control planes keep their relative input order. |
| LibvirtPools.ControlPlaneFirstArranges | spectrocloud/resource_cluster_libvirt.go:598-600 | The sorted list is a permutation of the input, with every control-plane pool before every other pool, and the other pools in input order. |
| LibvirtPools.ExpandMachinePools | spectrocloud/resource_cluster_libvirt.go:591-595 | One entity per `machine_pool` element, in list order, each built by `toMachinePoolLibvirt`. |
| LibvirtPools.ToMachinePoolConfigs | spectrocloud/resource_cluster_libvirt.go:591-600 | The entities sent are a permutation of the pools' entities. Control planes come first, and the other pools keep their list order. The order among control planes is left open. |
| LibvirtPools.FlattenDiskSizes | spectrocloud/resource_cluster_libvirt.go:438-451 | The loop prints every size and joins them with ",", which is `JoinDiskSizes`. |
| LibvirtPools.FlattenPlacements | spectrocloud/resource_cluster_libvirt.go:454-475 | Each placement becomes its state form: the host, the first network's type if any, the names joined with ",", and the three storage pools. |
| LibvirtPools.FlattenPool | spectrocloud/resource_cluster_libvirt.go:428-478 | One pool's state element: flags, name, count and update strategy copied, the instance type only when reported, and the placements flattened in order. |
| LibvirtPools.FlattenMachinePoolConfigs | spectrocloud/resource_cluster_libvirt.go:419-482 | One state element per pool, in order. The instance type is written only when the API reports one. |
| LibvirtPools.DiskSizesRejoin | spectrocloud/resource_cluster_libvirt.go:440-451 | Disk sizes written as `fmt.Sprint` prints them come back as the same string after `getAdditionalDisks` and flatten. |
| LibvirtPools.MachinePoolRoundTrip | spectrocloud/resource_cluster_libvirt.go:419-482 | Expand, the API's echo and flatten give back every key flatten writes. This needs int32-sized numbers, disk sizes written as `fmt.Sprint` prints them, and trimmed network names. |
| GoStrings.WrapInt32 | spectrocloud/resource_cluster_libvirt.go:640-641 | `int32(x)` keeps x when it fits, and otherwise differs from x by a multiple of 2^32. |
| GoStrings.Split | spectrocloud/resource_cluster_libvirt.go:671 | At least one piece, and no piece contains a comma. |
| GoStrings.Join | spectrocloud/resource_cluster_libvirt.go:450 | `strings.Join(parts, ",")`: the pieces in order, separated by single commas. The same join is used at spectrocloud/resource_cluster_libvirt.go:468 and spectrocloud/data_source_pack.go:84. `JoinSplit` and `SplitJoin` make it the inverse of `Split`. |
| GoStrings.JoinSplit | spectrocloud/resource_cluster_libvirt.go:691 | Joining the pieces of a split gives back the string. |
| GoStrings.SplitJoin | spectrocloud/resource_cluster_libvirt.go:450 | Splitting a join of one or more comma-free pieces gives back the pieces. |
| GoStrings.IsSpace | spectrocloud/resource_cluster_libvirt.go:673 | The code points `unicode.IsSpace` accepts, which `strings.TrimSpace` trims here and at spectrocloud/resource_cluster_libvirt.go:692: U+0009 to U+000D, U+0020, U+0085, U+00A0, U+1680, U+2000 to U+200A, U+2028, U+2029, U+202F, U+205F and U+3000. |
| GoStrings.TrimSpace | spectrocloud/resource_cluster_libvirt.go:673 | The result neither starts nor ends with white space. A string that does neither is unchanged. |
| GoStrings.TrimSpaceStripsEnds | spectrocloud/resource_cluster_libvirt.go:673 | The result is a slice of the input, and everything before and after that slice is white space. So only leading and trailing white space is removed. |
| GoStrings.TrimLeftDropsBlank | spectrocloud/resource_cluster_libvirt.go:673 | Every character TrimLeft drops from the front is white space. |
| GoStrings.TrimRightDropsBlank | spectrocloud/resource_cluster_libvirt.go:673 | Every character TrimRight drops from the end is white space. |
| GoStrings.ParseInt32 | spectrocloud/resource_cluster_libvirt.go:673 | A parse succeeds only with at least one digit after the sign, and without '-' its value is not negative. |
| GoStrings.ParseInt32Spec | spectrocloud/resource_cluster_libvirt.go:673 | A parse succeeds iff, after an optional sign, there are one or more characters, all decimal digits, and the signed value lies in the int32 range. The parse then yields exactly that signed value. |
| GoStrings.DecimalValueDigits | spectrocloud/resource_cluster_libvirt.go:673 | A digit string has a value iff every character is a decimal digit. |
| GoStrings.ParseOutOfRange | spectrocloud/resource_cluster_libvirt.go:673-676 | A number above the int32 maximum, or a negative one below the minimum, is a parse error. |
| GoStrings.ParseRejectsNonDigit | spectrocloud/resource_cluster_libvirt.go:673-676 | Any non-digit after the optional sign makes the parse fail. |
| GoStrings.ParseFormatInt32 | spectrocloud/resource_cluster_libvirt.go:442 | What `fmt.Sprint` prints for an int32 parses back to the same value. |
| GoStrings.FormatInt | spectrocloud/resource_cluster_libvirt.go:442 | The printed number is non-empty, holds no comma, and has no white space at either end. |
| Diagnostics.FromErr | spectrocloud/resource_project.go:70 | One error diagnostic whose summary is the error's text. |
| PackLookup.CloudTypes | spectrocloud/data_source_pack.go:80-84 | "all" is always present. The configured clouds stay a prefix, in order. At most one element is added, and none when "all" is already there. |
| PackLookup.Filters | spectrocloud/data_source_pack.go:67-86 | `filters` wins and gives exactly `[filters]`. Otherwise `id` gives exactly `["metadata.uid=" + id]`. Otherwise there are at most three filters. |
| PackLookup.FiltersFromAttributes | spectrocloud/data_source_pack.go:73-85 | Without `filters` and `id`, in both directions, the name, version and cloud filter is present iff that attribute is configured, and no other filter is present. |
| PackLookup.FiltersInOrder | spectrocloud/data_source_pack.go:73-85 | Without `filters` and `id`, the filters come in the order name, version, cloud, each at most once. |
| PackLookup.CloudFilterRoundTrip | spectrocloud/data_source_pack.go:84 | The clouds part of the cloud filter splits back into the queried cloud types, provided no cloud name holds a comma. |
| PackLookup.DiagName | spectrocloud/data_source_pack.go:93-96 | The configured name when there is one, and otherwise exactly the placeholder "unknown". |
| PackLookup.MatchError | spectrocloud/data_source_pack.go:98-111 | For any count other than one, exactly one error diagnostic that names the pack. Its summary is "no matching packs" iff the count is zero. |
| PackLookup.MultipleMatchesReportCount | spectrocloud/data_source_pack.go:109 | The number in the "Multiple packs returned" detail parses back to the number of matches. |
| PackLookup.PackData.Read | spectrocloud/data_source_pack.go:61-129 | A failing query returns its error and changes nothing. Zero or several matches return the match error and change nothing. One match sets the id to the pack's UID and copies the name, clouds, version, registry and values, with no diagnostics. |
| ProjectResource.Annotations | spectrocloud/resource_project.go:118-121 | The "description" key is present iff the description is non-empty. It carries the description, and no other key exists. |
| ProjectResource.DescriptionRoundTrip | spectrocloud/resource_project.go:81-85 | A non-empty description written by `toProject` is read back. An empty one leaves the attribute as it was, so reading back what was written never changes the description. |
| ProjectResource.ProjectData.ToProject | spectrocloud/resource_project.go:117-129 | The entity carries the name and the current id unchanged, the labels from the tags, and `Annotations(description)`. |
| ProjectResource.ProjectData.Create | spectrocloud/resource_project.go:51-62 | On success the id becomes the returned UID, with no diagnostics and no other change. On error the state is unchanged. |
| ProjectResource.ProjectData.Read | spectrocloud/resource_project.go:64-92 | An error is returned and nothing changes. A project that is gone clears the id and returns no diagnostics. Otherwise the name and tags are read back, and the description only when the annotation exists. |

## Left out

- The readiness wait after create (`resource.StateChangeConf`) is time-based polling inside the Terraform SDK and is not modelled.
- The remote calls are parameters: the machine-pool API's failure oracle, `GetPacks`, `CreateProject` and `GetProject`. The HTTP client and the error texts it produces are not modelled.
- `GetProject`'s search of the project list by UID is taken as the lookup function passed to the read.
- The resource schemas, `d.HasChange` guards and `d.Set` errors are not modelled. The model treats every `d.Set` as succeeding.
- The pass covers the update path only:
  - it does not model the cluster profile, backup and scan policy updates;
  - it does not model the final re-read;
  - it does not model the libvirt cluster's create, read and delete functions, `flattenCloudConfigLibvirt` or `toClusterConfig`.
- The project resource's update and delete only forward to the API and are not modelled.
- `PoolReconciler.MachinePoolApi`: a call records the pool configuration itself rather than its image under `toMachinePoolAws`. It also does not record the cloud config id. Both are the same in every call of a pass.
- `toMachinePoolAws`, `resourceMachinePoolAwsHash`, `toTags` and `flattenTags` are not part of this model. The hash and the tag conversions are function parameters. The pass calls the AWS helpers on libvirt pools; that is recorded only through the opaque hash and pool arguments.
- `stringContains` and `expandStringList` are not part of this model. They are taken as list membership and the identity on the set's elements.
- `LibvirtPools.ControlPlaneFirst` fixes the control-plane pools in their input order. `sort.SliceStable` with a comparator that reads only its first argument leaves that order to the library. `LibvirtPools.ToMachinePoolConfigs` therefore promises nothing about it.
- The pass does not check that the new pools have distinct names. The set is keyed by its hash (`resourceMachinePoolLibvirtHash`), not by name. A repeated new name gets a create after its first pool's call (`PoolReconciler.RepeatedNewName`). `PoolReconciler.OneCallPerName`, `PoolReconciler.CallCount`, `PoolReconciler.Classification`, `PoolReconciler.WalkIsPlan`, `PoolReconciler.WalkNamesDistinct` and `PoolReconciler.Idempotent` are stated for distinct new names only.
- The `log.Printf` calls of the pass (spectrocloud/resource_cluster_libvirt.go:519, 522, 538) are output only and are not modelled.
- `LibvirtPools.FlattenMachinePoolConfigs` does not write `cpus_sets`, because the source does not. `LibvirtPools.MachinePoolRoundTrip` therefore compares against the keys flatten writes (`Managed`).
- The required placement key `network` (spectrocloud/resource_cluster_libvirt.go:242-245) is not modelled. `toMachinePoolLibvirt` never reads it and flatten never writes it, so `PlacementState` has no field for it. `LibvirtPools.MachinePoolRoundTrip` says nothing about it.
- The order of a `schema.Set`'s elements is an input sequence. The delete order over the leftover map is a nondeterministic choice reported as `deleted`.
- Strings are sequences of characters, whereas Go works on UTF-8 bytes. This changes nothing for the separator, the digits and the white space.
