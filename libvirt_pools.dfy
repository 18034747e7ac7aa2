/**
 * The machine-pool mappers of the libvirt cluster resource: expanding one
 * element of the `machine_pool` set into the API's pool entity
 * (toMachinePoolLibvirt with getNetworks and getAdditionalDisks), ordering the
 * pools control plane first (toLibvirtCluster), and flattening the pools the
 * API reports back into the state's shape (flattenMachinePoolConfigsLibvirt).
 */
module LibvirtPools {
  import opened Wrappers
  import opened GoStrings

  // ---------------------------------------------------------------------------
  // Configuration side: one element of `machine_pool` as Terraform hands it over
  // ---------------------------------------------------------------------------

  datatype InstanceTypeState = InstanceTypeState(
    attachedDisksSizeGb: Option<string>,  // optional "attached_disks_size_gb"
    cpusSets: int,
    diskSizeGb: int,
    memoryMb: int,
    cpu: int)

  datatype PlacementState = PlacementState(
    applianceId: string,
    networkType: string,
    networkNames: Option<string>,         // "network_names", read only when present
    imageStoragePool: string,
    targetStoragePool: string,
    dataStoragePool: string)

  datatype MachinePoolState = MachinePoolState(
    controlPlane: bool,
    controlPlaneAsWorker: bool,
    name: string,
    count: int,
    updateStrategy: string,
    instanceType: InstanceTypeState,      // the single element of "instance_type"
    placements: seq<PlacementState>)

  // ---------------------------------------------------------------------------
  // API side: the request entity and the pool configuration read back
  // ---------------------------------------------------------------------------

  datatype NetworkSpec = NetworkSpec(networkName: string, networkType: string)

  datatype Placement = Placement(
    networks: seq<NetworkSpec>,
    sourceStoragePool: string,
    targetStoragePool: string,
    dataStoragePool: string,
    hostUid: string)

  datatype InstanceType = InstanceType(cpuset: string, memoryInMb: Int32, numCpus: Int32)

  /** The cloud half of a pool entity; a nil disk list is None. */
  datatype PoolCloudConfig = PoolCloudConfig(
    placements: seq<Placement>,
    rootDiskInGb: Int32,
    nonRootDisksInGb: Option<seq<Int32>>,
    instanceType: InstanceType)

  datatype PoolConfig = PoolConfig(
    isControlPlane: bool,
    labels: seq<string>,
    name: string,
    size: Int32,
    updateStrategy: string,
    useControlPlaneAsWorker: bool)

  datatype MachinePoolEntity = MachinePoolEntity(cloudConfig: PoolCloudConfig, poolConfig: PoolConfig)

  /** A pool configuration as the API reports it; a nil disk list reads as empty. */
  datatype MachinePoolConfig = MachinePoolConfig(
    isControlPlane: bool,
    useControlPlaneAsWorker: bool,
    name: string,
    size: Int32,
    updateStrategy: string,
    instanceType: Option<InstanceType>,
    rootDiskInGb: Int32,
    nonRootDisksInGb: seq<Int32>,
    placements: seq<Placement>)

  // ---------------------------------------------------------------------------
  // State side: the keys flatten writes back into `machine_pool`
  // ---------------------------------------------------------------------------

  datatype FlatInstanceType = FlatInstanceType(
    diskSizeGb: int,
    memoryMb: int,
    cpu: int,
    attachedDisksSizeGb: string)

  /** networkType is None when flatten leaves the key out (a placement without networks). */
  datatype FlatPlacement = FlatPlacement(
    applianceId: string,
    networkType: Option<string>,
    networkNames: string,
    imageStoragePool: string,
    targetStoragePool: string,
    dataStoragePool: string)

  datatype FlatMachinePool = FlatMachinePool(
    controlPlane: bool,
    controlPlaneAsWorker: bool,
    name: string,
    count: int,
    updateStrategy: string,
    instanceType: Option<FlatInstanceType>,
    placements: seq<FlatPlacement>)

  // ---------------------------------------------------------------------------
  // getAdditionalDisks
  // ---------------------------------------------------------------------------

  /** One token of "attached_disks_size_gb", trimmed and parsed as a decimal int32. */
  function DiskSize(token: string): Option<Int32>
  {
    ParseInt32(TrimSpace(token))
  }

  /** Each token parsed by `parse`, in order, or None at the first token that fails. */
  function ParseEach<T>(tokens: seq<string>, parse: string -> Option<T>): (values: Option<seq<T>>)
    ensures values.Some? ==> |values.value| == |tokens|
    decreases |tokens|
  {
    if tokens == [] then Some([])
    else
      match ParseEach(tokens[..|tokens| - 1], parse)
      case None => None
      case Some(values) =>
        match parse(tokens[|tokens| - 1])
        case None => None
        case Some(x) => Some(values + [x])
  }

  /** When the values are present, each is its token's parse. */
  lemma {:induction false} ParseEachValues<T>(tokens: seq<string>, parse: string -> Option<T>)
    requires ParseEach(tokens, parse).Some?
    ensures forall i :: 0 <= i < |tokens| ==> parse(tokens[i]) == Some(ParseEach(tokens, parse).value[i])
    decreases |tokens|
  {
    if tokens != [] {
      var n := |tokens| - 1;
      var init := tokens[..n];
      ParseEachValues(init, parse);
      assert forall i :: 0 <= i < n ==> init[i] == tokens[i];
    }
  }

  /** When every token parses, the values are present. */
  lemma {:induction false} ParseEachPresent<T>(tokens: seq<string>, parse: string -> Option<T>)
    requires forall i :: 0 <= i < |tokens| ==> parse(tokens[i]).Some?
    ensures ParseEach(tokens, parse).Some?
    decreases |tokens|
  {
    if tokens != [] {
      var n := |tokens| - 1;
      var init := tokens[..n];
      assert forall i :: 0 <= i < |init| ==> init[i] == tokens[i];
      ParseEachPresent(init, parse);
    }
  }

  /** The sizes of the tokens, in order, or None at the first token that fails to parse. */
  function ParseDiskSizes(tokens: seq<string>): (sizes: Option<seq<Int32>>)
    ensures sizes.Some? ==> |sizes.value| == |tokens|
  {
    ParseEach(tokens, DiskSize)
  }

  /** The sizes are present exactly when every token parses, and then each is its token's value. */
  lemma ParseDiskSizesSpec(tokens: seq<string>)
    ensures ParseDiskSizes(tokens).Some? <==> forall i :: 0 <= i < |tokens| ==> DiskSize(tokens[i]).Some?
    ensures ParseDiskSizes(tokens).Some? ==>
              forall i :: 0 <= i < |tokens| ==> DiskSize(tokens[i]) == Some(ParseDiskSizes(tokens).value[i])
  {
    if ParseDiskSizes(tokens).Some? {
      ParseEachValues(tokens, DiskSize);
    }
    if forall i :: 0 <= i < |tokens| ==> DiskSize(tokens[i]).Some? {
      ParseEachPresent(tokens, DiskSize);
    }
  }

  lemma ParseDiskSizesAccepts(tokens: seq<string>, sizes: seq<Int32>)
    requires |sizes| == |tokens|
    requires forall k :: 0 <= k < |tokens| ==> DiskSize(tokens[k]) == Some(sizes[k])
    ensures ParseDiskSizes(tokens) == Some(sizes)
  {
    ParseDiskSizesSpec(tokens);
    var r := ParseDiskSizes(tokens);
    assert r.Some?;
    assert r.value == sizes;
  }

  lemma ParseDiskSizesRejects(tokens: seq<string>, i: nat)
    requires i < |tokens| && DiskSize(tokens[i]).None?
    ensures ParseDiskSizes(tokens) == None
  {
    ParseDiskSizesSpec(tokens);
  }

  /**
   * The disk sizes getAdditionalDisks yields: none when the key is absent,
   * otherwise one size per comma-separated token, or nil (None) when any token
   * fails to parse.
   */
  function AdditionalDisks(attached: Option<string>): (disks: Option<seq<Int32>>)
    ensures attached.None? ==> disks == Some([])
    ensures attached.Some? && disks.Some? ==> |disks.value| == |Split(attached.value)|
  {
    match attached
    case None => Some([])
    case Some(s) => ParseDiskSizes(Split(s))
  }

  method GetAdditionalDisks(attached: Option<string>) returns (disks: Option<seq<Int32>>)
    ensures disks == AdditionalDisks(attached)
  {
    if attached.None? {
      return Some([]);
    }
    disks := ParseTokens(Split(attached.value));
  }

  /** The loop of getAdditionalDisks: parse each token, giving up at the first that fails. */
  method ParseTokens(tokens: seq<string>) returns (disks: Option<seq<Int32>>)
    ensures disks == ParseDiskSizes(tokens)
  {
    var sizes: seq<Int32> := [];
    for i := 0 to |tokens|
      invariant ParseDiskSizes(tokens[..i]) == Some(sizes)
    {
      var x := DiskSize(tokens[i]);
      assert tokens[..i + 1][..i] == tokens[..i];
      if x.None? {
        ParseDiskSizesRejects(tokens, i);
        return None;
      }
      sizes := sizes + [x.value];
    }
    assert tokens[..|tokens|] == tokens;
    return Some(sizes);
  }

  // ---------------------------------------------------------------------------
  // getNetworks
  // ---------------------------------------------------------------------------

  /**
   * The networks of a placement: one per comma-separated token of
   * "network_names", named by the trimmed token, all of the placement's
   * network type; none when the key is absent.
   */
  function Networks(p: PlacementState): (networks: seq<NetworkSpec>)
    ensures p.networkNames.None? ==> networks == []
    ensures p.networkNames.Some? ==> |networks| == |Split(p.networkNames.value)| >= 1
    ensures forall i :: 0 <= i < |networks| ==> networks[i].networkType == p.networkType
  {
    match p.networkNames
    case None => []
    case Some(names) =>
      var tokens := Split(names);
      seq(|tokens|, i requires 0 <= i < |tokens| => NetworkSpec(TrimSpace(tokens[i]), p.networkType))
  }

  method GetNetworks(p: PlacementState) returns (networks: seq<NetworkSpec>)
    ensures networks == Networks(p)
  {
    networks := [];
    if p.networkNames.Some? {
      var tokens := Split(p.networkNames.value);
      for i := 0 to |tokens|
        invariant |networks| == i
        invariant forall k :: 0 <= k < i ==> networks[k] == NetworkSpec(TrimSpace(tokens[k]), p.networkType)
      {
        var networkName := TrimSpace(tokens[i]);
        networks := networks + [NetworkSpec(networkName, p.networkType)];
      }
    }
  }

  // ---------------------------------------------------------------------------
  // toMachinePoolLibvirt
  // ---------------------------------------------------------------------------

  const MasterLabel: string := "master"

  function ToPlacement(p: PlacementState): Placement
  {
    Placement(Networks(p), p.imageStoragePool, p.targetStoragePool, p.dataStoragePool, p.applianceId)
  }

  function Placements(states: seq<PlacementState>): seq<Placement>
  {
    seq(|states|, j requires 0 <= j < |states| => ToPlacement(states[j]))
  }

  /** The pool entity toMachinePoolLibvirt builds from one element of `machine_pool`. */
  function ToMachinePool(m: MachinePoolState): MachinePoolEntity
  {
    var ins := m.instanceType;
    var placements := Placements(m.placements);
    var instanceType := InstanceType(FormatInt(ins.cpusSets), WrapInt32(ins.memoryMb), WrapInt32(ins.cpu));
    var labels := if m.controlPlane then [MasterLabel] else [];
    MachinePoolEntity(
      PoolCloudConfig(placements, WrapInt32(ins.diskSizeGb), AdditionalDisks(ins.attachedDisksSizeGb), instanceType),
      PoolConfig(m.controlPlane, labels, m.name, WrapInt32(m.count), m.updateStrategy, m.controlPlaneAsWorker))
  }

  /**
   * The entity's fields: the "master" label exactly for a control plane, the
   * flags, name and update strategy copied, the count as size when it fits in
   * an int32, one placement per placement with its networks, and the disks of
   * the instance type.
   */
  lemma ToMachinePoolFields(m: MachinePoolState)
    ensures var e := ToMachinePool(m);
      && e.poolConfig.labels == (if m.controlPlane then [MasterLabel] else [])
      && (MasterLabel in e.poolConfig.labels <==> m.controlPlane)
      && (forall l :: l in e.poolConfig.labels ==> l == MasterLabel)
      && e.poolConfig.isControlPlane == m.controlPlane
      && e.poolConfig.useControlPlaneAsWorker == m.controlPlaneAsWorker
      && e.poolConfig.name == m.name && e.poolConfig.updateStrategy == m.updateStrategy
      && (MinInt32 <= m.count <= MaxInt32 ==> e.poolConfig.size == m.count)
      && |e.cloudConfig.placements| == |m.placements|
      && (forall j :: 0 <= j < |m.placements| ==>
            e.cloudConfig.placements[j].networks == Networks(m.placements[j]))
      && e.cloudConfig.nonRootDisksInGb == AdditionalDisks(m.instanceType.attachedDisksSizeGb)
  {
  }

  method ToMachinePoolLibvirt(m: MachinePoolState) returns (mp: MachinePoolEntity)
    ensures mp == ToMachinePool(m)
  {
    var labels: seq<string> := [];
    if m.controlPlane {
      labels := labels + [MasterLabel];
    }
    assert labels == (if m.controlPlane then [MasterLabel] else []);
    var placements := ToPlacements(m.placements);
    var ins := m.instanceType;
    var instanceType := InstanceType(FormatInt(ins.cpusSets), WrapInt32(ins.memoryMb), WrapInt32(ins.cpu));
    var addDisks := GetAdditionalDisks(ins.attachedDisksSizeGb);
    mp := MachinePoolEntity(
      PoolCloudConfig(placements, WrapInt32(ins.diskSizeGb), addDisks, instanceType),
      PoolConfig(m.controlPlane, labels, m.name, WrapInt32(m.count), m.updateStrategy, m.controlPlaneAsWorker));
  }

  /** The loop of toMachinePoolLibvirt over the placements, one getNetworks call each. */
  method ToPlacements(states: seq<PlacementState>) returns (placements: seq<Placement>)
    ensures placements == Placements(states)
  {
    placements := [];
    for j := 0 to |states|
      invariant |placements| == j
      invariant forall k :: 0 <= k < j ==> placements[k] == ToPlacement(states[k])
    {
      var p := states[j];
      var networks := GetNetworks(p);
      placements := placements + [Placement(networks, p.imageStoragePool, p.targetStoragePool,
                                            p.dataStoragePool, p.applianceId)];
    }
  }

  // ---------------------------------------------------------------------------
  // The control-plane-first sort in toLibvirtCluster
  // ---------------------------------------------------------------------------

  function ControlPlanes(s: seq<MachinePoolEntity>): (r: seq<MachinePoolEntity>)
    ensures forall i :: 0 <= i < |r| ==> r[i].poolConfig.isControlPlane
    ensures |r| <= |s|
  {
    if s == [] then []
    else (if s[0].poolConfig.isControlPlane then [s[0]] else []) + ControlPlanes(s[1..])
  }

  function Workers(s: seq<MachinePoolEntity>): (r: seq<MachinePoolEntity>)
    ensures forall i :: 0 <= i < |r| ==> !r[i].poolConfig.isControlPlane
    ensures |r| <= |s|
  {
    if s == [] then []
    else (if s[0].poolConfig.isControlPlane then [] else [s[0]]) + Workers(s[1..])
  }

  /**
   * The pool order toLibvirtCluster sends: every control-plane pool before
   * every other pool.  The comparator looks at its first argument only, so the
   * order among control-plane pools is the library's; this model keeps their
   * input order, and no property below depends on it.
   */
  function ControlPlaneFirst(s: seq<MachinePoolEntity>): (r: seq<MachinePoolEntity>)
    ensures forall i, j :: 0 <= i < j < |r| && r[j].poolConfig.isControlPlane ==> r[i].poolConfig.isControlPlane
  {
    ControlPlanes(s) + Workers(s)
  }

  /** The sort neither drops nor duplicates a pool. */
  lemma {:induction false} ControlPlaneFirstIsPermutation(s: seq<MachinePoolEntity>)
    ensures multiset(ControlPlaneFirst(s)) == multiset(s)
  {
    if s != [] {
      var h, t := s[0], s[1..];
      assert s == [h] + t;
      ControlPlaneFirstIsPermutation(t);
      if h.poolConfig.isControlPlane {
        assert ControlPlanes(s) == [h] + ControlPlanes(t) && Workers(s) == Workers(t);
      } else {
        assert ControlPlanes(s) == ControlPlanes(t) && Workers(s) == [h] + Workers(t);
      }
    }
  }

  lemma {:induction false} WorkersOfConcat(a: seq<MachinePoolEntity>, b: seq<MachinePoolEntity>)
    ensures Workers(a + b) == Workers(a) + Workers(b)
  {
    if a != [] {
      WorkersOfConcat(a[1..], b);
      assert (a + b)[1..] == a[1..] + b;
    } else {
      assert a + b == b;
    }
  }

  lemma {:induction false} WorkersOfWorkers(s: seq<MachinePoolEntity>)
    requires forall i :: 0 <= i < |s| ==> !s[i].poolConfig.isControlPlane
    ensures Workers(s) == s
  {
    if s != [] {
      WorkersOfWorkers(s[1..]);
    }
  }

  lemma {:induction false} WorkersOfControlPlanes(s: seq<MachinePoolEntity>)
    requires forall i :: 0 <= i < |s| ==> s[i].poolConfig.isControlPlane
    ensures Workers(s) == []
  {
    if s != [] {
      WorkersOfControlPlanes(s[1..]);
    }
  }

  /** Pools that are not control planes keep their input order. */
  lemma WorkersKeepOrder(s: seq<MachinePoolEntity>)
    ensures Workers(ControlPlaneFirst(s)) == Workers(s)
  {
    WorkersOfConcat(ControlPlanes(s), Workers(s));
    WorkersOfControlPlanes(ControlPlanes(s));
    WorkersOfWorkers(Workers(s));
  }

  /** `r` holds the pools of `s`, control planes first, the other pools in the order of `s`. */
  predicate ArrangedControlPlaneFirst(r: seq<MachinePoolEntity>, s: seq<MachinePoolEntity>)
  {
    && multiset(r) == multiset(s)
    && (forall i, j :: 0 <= i < j < |r| && r[j].poolConfig.isControlPlane ==> r[i].poolConfig.isControlPlane)
    && Workers(r) == Workers(s)
  }

  lemma ControlPlaneFirstArranges(s: seq<MachinePoolEntity>)
    ensures ArrangedControlPlaneFirst(ControlPlaneFirst(s), s)
  {
    ControlPlaneFirstIsPermutation(s);
    WorkersKeepOrder(s);
  }

  /** The pool entities of the `machine_pool` elements, in list order, before the sort. */
  function MachinePoolEntities(pools: seq<MachinePoolState>): seq<MachinePoolEntity>
  {
    if pools == [] then []
    else MachinePoolEntities(pools[..|pools| - 1]) + [ToMachinePool(pools[|pools| - 1])]
  }

  /**
   * The pool entities toLibvirtCluster sends: those of the `machine_pool`
   * elements, control-plane pools first, other pools in their list order.
   * Which order the control-plane pools end up in is left open.
   */
  method ToMachinePoolConfigs(pools: seq<MachinePoolState>) returns (configs: seq<MachinePoolEntity>)
    ensures ArrangedControlPlaneFirst(configs, MachinePoolEntities(pools))
  {
    var entities := ExpandMachinePools(pools);
    ControlPlaneFirstArranges(entities);
    configs := ControlPlaneFirst(entities);
  }

  /** The loop of toLibvirtCluster over `machine_pool`, one toMachinePoolLibvirt call per element. */
  method ExpandMachinePools(pools: seq<MachinePoolState>) returns (entities: seq<MachinePoolEntity>)
    ensures entities == MachinePoolEntities(pools)
  {
    entities := [];
    for i := 0 to |pools|
      invariant entities == MachinePoolEntities(pools[..i])
    {
      var mp := ToMachinePoolLibvirt(pools[i]);
      assert pools[..i + 1][..i] == pools[..i];
      entities := entities + [mp];
    }
    assert pools[..|pools|] == pools;
  }

  // ---------------------------------------------------------------------------
  // flattenMachinePoolConfigsLibvirt
  // ---------------------------------------------------------------------------

  /** The sizes printed in decimal and joined with ",". */
  function JoinDiskSizes(sizes: seq<Int32>): string
  {
    Join(PrintedSizes(sizes))
  }

  /** Each size as fmt.Sprint prints it. */
  function PrintedSizes(sizes: seq<Int32>): seq<string>
  {
    seq(|sizes|, i requires 0 <= i < |sizes| => FormatInt(sizes[i]))
  }

  function NetworkNames(networks: seq<NetworkSpec>): seq<string>
  {
    seq(|networks|, i requires 0 <= i < |networks| => networks[i].networkName)
  }

  /** A placement in state form: the first network's type, the network names joined with ",". */
  function FlattenPlacement(p: Placement): FlatPlacement
  {
    FlatPlacement(
      p.hostUid,
      if |p.networks| > 0 then Some(p.networks[0].networkType) else None,
      Join(NetworkNames(p.networks)),
      p.sourceStoragePool, p.targetStoragePool, p.dataStoragePool)
  }

  function FlatPlacements(placements: seq<Placement>): seq<FlatPlacement>
  {
    seq(|placements|, j requires 0 <= j < |placements| => FlattenPlacement(placements[j]))
  }

  /** A pool in state form; the instance type is written only when the API reports one. */
  function FlattenMachinePool(m: MachinePoolConfig): FlatMachinePool
  {
    var instanceType :=
      match m.instanceType
      case None => None
      case Some(it) => Some(FlatInstanceType(m.rootDiskInGb, it.memoryInMb, it.numCpus, JoinDiskSizes(m.nonRootDisksInGb)));
    FlatMachinePool(
      m.isControlPlane, m.useControlPlaneAsWorker, m.name, m.size, m.updateStrategy, instanceType,
      FlatPlacements(m.placements))
  }

  method FlattenDiskSizes(sizes: seq<Int32>) returns (s: string)
    ensures s == JoinDiskSizes(sizes)
  {
    var additionalDisks: seq<string> := [];
    for i := 0 to |sizes|
      invariant additionalDisks == seq(i, k requires 0 <= k < i => FormatInt(sizes[k]))
    {
      additionalDisks := additionalDisks + [FormatInt(sizes[i])];
    }
    s := Join(additionalDisks);
  }

  method FlattenPlacements(placements: seq<Placement>) returns (flat: seq<FlatPlacement>)
    ensures flat == FlatPlacements(placements)
  {
    flat := [];
    for j := 0 to |placements|
      invariant |flat| == j
      invariant forall k :: 0 <= k < j ==> flat[k] == FlattenPlacement(placements[k])
    {
      var p := placements[j];
      var networkType: Option<string> := None;
      if |p.networks| > 0 {
        networkType := Some(p.networks[0].networkType);
      }
      var networkNames: seq<string> := [];
      for n := 0 to |p.networks|
        invariant networkNames == NetworkNames(p.networks[..n])
      {
        networkNames := networkNames + [p.networks[n].networkName];
      }
      assert p.networks[..|p.networks|] == p.networks;
      flat := flat + [FlatPlacement(p.hostUid, networkType, Join(networkNames),
                                    p.sourceStoragePool, p.targetStoragePool, p.dataStoragePool)];
    }
  }

  method FlattenMachinePoolConfigs(machinePools: seq<MachinePoolConfig>) returns (ois: seq<FlatMachinePool>)
    ensures ois == seq(|machinePools|, i requires 0 <= i < |machinePools| => FlattenMachinePool(machinePools[i]))
  {
    ois := [];
    for i := 0 to |machinePools|
      invariant |ois| == i
      invariant forall k :: 0 <= k < i ==> ois[k] == FlattenMachinePool(machinePools[k])
    {
      var oi := FlattenPool(machinePools[i]);
      ois := ois + [oi];
    }
  }

  /** The body of the loop in flattenMachinePoolConfigsLibvirt: one pool in state form. */
  method FlattenPool(mp: MachinePoolConfig) returns (oi: FlatMachinePool)
    ensures oi == FlattenMachinePool(mp)
  {
    var instanceType: Option<FlatInstanceType> := None;
    if mp.instanceType.Some? {
      var disks := FlattenDiskSizes(mp.nonRootDisksInGb);
      instanceType := Some(FlatInstanceType(mp.rootDiskInGb, mp.instanceType.value.memoryInMb,
                                            mp.instanceType.value.numCpus, disks));
    }
    var placements := FlattenPlacements(mp.placements);
    oi := FlatMachinePool(mp.isControlPlane, mp.useControlPlaneAsWorker, mp.name, mp.size,
                          mp.updateStrategy, instanceType, placements);
  }

  // ---------------------------------------------------------------------------
  // Round trips between the two directions
  // ---------------------------------------------------------------------------

  /**
   * Disk sizes printed and joined as flatten does parse back to the same sizes;
   * an empty list prints as "", which getAdditionalDisks turns into nil.
   */
  lemma DisksRoundTrip(sizes: seq<Int32>)
    ensures AdditionalDisks(Some(JoinDiskSizes(sizes))) == if sizes == [] then None else Some(sizes)
  {
    var printed := PrintedSizes(sizes);
    if sizes == [] {
      assert printed == [];
      assert JoinDiskSizes(sizes) == "";
      EmptyAttachedYieldsNil();
    } else {
      SplitJoin(printed);
      assert Split(JoinDiskSizes(sizes)) == printed;
      forall i | 0 <= i < |sizes|
        ensures DiskSize(printed[i]) == Some(sizes[i])
      {
        ParseFormatInt32(sizes[i]);
      }
      ParseDiskSizesAccepts(printed, sizes);
    }
  }

  /** An empty "attached_disks_size_gb" is one empty token, which does not parse. */
  lemma EmptyAttachedYieldsNil()
    ensures AdditionalDisks(Some("")) == None
  {
    assert Split("") == [""];
    assert TrimSpace("") == "";
    assert ParseInt32("") == None;
    assert !DiskSize(Split("")[0]).Some?;
  }

  lemma MalformedTokenRejected()
    ensures DiskSize(" x") == None
  {
    LeadingBlankTrimmed(' ', "x");
    assert [' '] + "x" == " x";
    assert Unsigned("x") == "x";
    ParseRejectsNonDigit("x", 0);
  }

  /** A malformed token drops every disk: "10, x" yields nil, not the one good size. */
  lemma MalformedDiskSizesYieldNil()
    ensures AdditionalDisks(Some("10, x")) == None
  {
    var tokens := ["10", " x"];
    assert Join(tokens) == "10, x";
    SplitJoin(tokens);
    MalformedTokenRejected();
    ParseDiskSizesRejects(tokens, 1);
  }

  /**
   * A size beyond the int32 range, above the maximum or below the minimum,
   * is a parse error, so the whole list is nil.
   */
  lemma OutOfRangeDiskSizeYieldsNil(n: nat)
    ensures n > MaxInt32 ==> AdditionalDisks(Some(NatToDecimal(n))) == None
    ensures n > -MinInt32 ==> AdditionalDisks(Some("-" + NatToDecimal(n))) == None
  {
    if n > MaxInt32 {
      AboveMaxYieldsNil(n);
    }
    if n > -MinInt32 {
      BelowMinYieldsNil(n);
    }
  }

  lemma AboveMaxYieldsNil(n: nat)
    requires n > MaxInt32
    ensures AdditionalDisks(Some(NatToDecimal(n))) == None
  {
    var t := NatToDecimal(n);
    assert Comma !in t by {
      assert forall i :: 0 <= i < |t| ==> IsDigit(t[i]);
    }
    assert DiskSize(t) == None by {
      DigitEndsNeedNoTrim(t);
      ParseOutOfRange(n);
    }
    UnparsableTokenYieldsNil(t);
  }

  lemma BelowMinYieldsNil(n: nat)
    requires n > -MinInt32
    ensures AdditionalDisks(Some("-" + NatToDecimal(n))) == None
  {
    var t := NatToDecimal(n);
    var m := "-" + t;
    assert Comma !in m by {
      assert forall i :: 1 <= i < |m| ==> m[i] == t[i - 1] && IsDigit(m[i]);
    }
    assert DiskSize(m) == None by {
      SignedEndsNeedNoTrim(t);
      ParseOutOfRange(n);
    }
    UnparsableTokenYieldsNil(m);
  }

  /** A token that fails to parse, with no comma in it, makes the list nil. */
  lemma UnparsableTokenYieldsNil(t: string)
    requires Comma !in t && DiskSize(t) == None
    ensures AdditionalDisks(Some(t)) == None
  {
    CommaFreeIsOneToken(t);
    ParseDiskSizesRejects([t], 0);
  }

  /** A comma-free string is a single token. */
  lemma CommaFreeIsOneToken(t: string)
    requires Comma !in t
    ensures Split(t) == [t]
  {
    assert Join([t]) == t;
    SplitJoin([t]);
  }

  /** A string starting and ending with a digit has nothing to trim. */
  lemma DigitEndsNeedNoTrim(t: string)
    requires |t| >= 1 && IsDigit(t[0]) && IsDigit(t[|t| - 1])
    ensures TrimSpace(t) == t
  {
    assert !IsSpace(t[0]) && !IsSpace(t[|t| - 1]);
  }

  /** A minus sign before digits leaves nothing to trim either. */
  lemma SignedEndsNeedNoTrim(t: string)
    requires |t| >= 1 && IsDigit(t[|t| - 1])
    ensures TrimSpace("-" + t) == "-" + t
  {
    var m := "-" + t;
    assert m[0] == '-' && m[|m| - 1] == t[|t| - 1];
    assert !IsSpace(m[0]) && !IsSpace(m[|m| - 1]);
  }

  /** Every token is the decimal form fmt.Sprint prints for its value. */
  predicate CanonicalSizeToken(t: string)
  {
    ParseInt32(t).Some? && FormatInt(ParseInt32(t).value) == t
  }

  predicate CanonicalDiskSizes(attached: Option<string>)
  {
    match attached
    case None => true
    case Some(s) =>
      var tokens := Split(s);
      s == "" || forall i :: 0 <= i < |tokens| ==> CanonicalSizeToken(tokens[i])
  }

  /** No network name carries white space at either end. */
  predicate CanonicalNetworkNames(names: Option<string>)
  {
    match names
    case None => true
    case Some(s) =>
      var tokens := Split(s);
      forall i :: 0 <= i < |tokens| ==> TrimSpace(tokens[i]) == tokens[i]
  }

  /** The pool fields whose values fit in the int32 the API carries. */
  predicate FitsInt32(m: MachinePoolState)
  {
    && MinInt32 <= m.count <= MaxInt32
    && MinInt32 <= m.instanceType.diskSizeGb <= MaxInt32
    && MinInt32 <= m.instanceType.memoryMb <= MaxInt32
    && MinInt32 <= m.instanceType.cpu <= MaxInt32
  }

  /** The pool as the API reports it back after accepting `e`. */
  function Echo(e: MachinePoolEntity): MachinePoolConfig
  {
    MachinePoolConfig(
      e.poolConfig.isControlPlane, e.poolConfig.useControlPlaneAsWorker, e.poolConfig.name,
      e.poolConfig.size, e.poolConfig.updateStrategy, Some(e.cloudConfig.instanceType),
      e.cloudConfig.rootDiskInGb, e.cloudConfig.nonRootDisksInGb.GetOr([]), e.cloudConfig.placements)
  }

  /** The keys of a placement that flatten writes back, as the configuration gave them. */
  function ManagedPlacement(p: PlacementState): FlatPlacement
  {
    FlatPlacement(
      p.applianceId,
      if p.networkNames.Some? then Some(p.networkType) else None,
      p.networkNames.GetOr(""),
      p.imageStoragePool, p.targetStoragePool, p.dataStoragePool)
  }

  /** The keys of a pool that flatten writes back (everything but cpus_sets), as the configuration gave them. */
  function Managed(m: MachinePoolState): FlatMachinePool
  {
    var ins := m.instanceType;
    FlatMachinePool(
      m.controlPlane, m.controlPlaneAsWorker, m.name, m.count, m.updateStrategy,
      Some(FlatInstanceType(ins.diskSizeGb, ins.memoryMb, ins.cpu, ins.attachedDisksSizeGb.GetOr(""))),
      seq(|m.placements|, j requires 0 <= j < |m.placements| => ManagedPlacement(m.placements[j])))
  }

  /** A token in printed form has no white space to trim. */
  lemma CanonicalTokenIsTrimmed(t: string)
    requires CanonicalSizeToken(t)
    ensures DiskSize(t) == ParseInt32(t)
  {
    assert TrimSpace(FormatInt(ParseInt32(t).value)) == t;
  }

  /** Canonical tokens parse, and printing the sizes gives the tokens back. */
  lemma PrintedTokens(tokens: seq<string>)
    requires forall i :: 0 <= i < |tokens| ==> CanonicalSizeToken(tokens[i])
    ensures ParseDiskSizes(tokens).Some? && PrintedSizes(ParseDiskSizes(tokens).value) == tokens
  {
    forall i | 0 <= i < |tokens|
      ensures DiskSize(tokens[i]) == ParseInt32(tokens[i])
    {
      CanonicalTokenIsTrimmed(tokens[i]);
    }
    ParseDiskSizesSpec(tokens);
    var printed := PrintedSizes(ParseDiskSizes(tokens).value);
    assert forall i :: 0 <= i < |tokens| ==> printed[i] == tokens[i];
  }

  /** Canonical disk sizes survive expand, the API's echo and flatten unchanged. */
  lemma DiskSizesRejoin(attached: Option<string>)
    requires CanonicalDiskSizes(attached)
    ensures JoinDiskSizes(AdditionalDisks(attached).GetOr([])) == attached.GetOr("")
  {
    if attached.Some? && attached.value != "" {
      PrintedTokens(Split(attached.value));
      JoinSplit(attached.value);
    } else if attached.Some? {
      EmptyAttachedYieldsNil();
    }
  }

  /** Trimmed network names survive expand, the API's echo and flatten unchanged. */
  lemma PlacementRejoin(p: PlacementState)
    requires CanonicalNetworkNames(p.networkNames)
    ensures FlattenPlacement(ToPlacement(p)) == ManagedPlacement(p)
  {
    if p.networkNames.Some? {
      var tokens := Split(p.networkNames.value);
      var networks := Networks(p);
      assert |networks| == |tokens|;
      forall i | 0 <= i < |tokens|
        ensures networks[i].networkName == tokens[i]
      {
        assert TrimSpace(tokens[i]) == tokens[i];
      }
      assert NetworkNames(networks) == tokens;
      JoinSplit(p.networkNames.value);
    }
  }

  /**
   * Expanding a pool, letting the API echo it and flattening it again gives
   * back every key flatten writes, provided the numbers fit in int32, the disk
   * sizes are written as fmt.Sprint prints them and the network names carry no
   * surrounding white space.
   */
  lemma MachinePoolRoundTrip(m: MachinePoolState)
    requires FitsInt32(m)
    requires CanonicalDiskSizes(m.instanceType.attachedDisksSizeGb)
    requires forall j :: 0 <= j < |m.placements| ==> CanonicalNetworkNames(m.placements[j].networkNames)
    ensures FlattenMachinePool(Echo(ToMachinePool(m))) == Managed(m)
  {
    var e := ToMachinePool(m);
    var echo := Echo(e);
    var flat := FlattenMachinePool(echo);
    var want := Managed(m);
    var ins := m.instanceType;
    assert flat.instanceType == want.instanceType by {
      DiskSizesRejoin(ins.attachedDisksSizeGb);
      assert echo.nonRootDisksInGb == AdditionalDisks(ins.attachedDisksSizeGb).GetOr([]);
      assert echo.rootDiskInGb == ins.diskSizeGb;
      assert echo.instanceType.value.memoryInMb == ins.memoryMb;
      assert echo.instanceType.value.numCpus == ins.cpu;
    }
    assert flat.placements == want.placements by {
      assert |echo.placements| == |m.placements|;
      forall j | 0 <= j < |m.placements|
        ensures flat.placements[j] == want.placements[j]
      {
        assert echo.placements[j] == ToPlacement(m.placements[j]);
        PlacementRejoin(m.placements[j]);
      }
    }
    assert flat.count == want.count;
  }

  /** An empty "network_names" is one empty token, so one network with an empty name. */
  lemma EmptyNetworkNames(p: PlacementState)
    requires p.networkNames == Some("")
    ensures Networks(p) == [NetworkSpec("", p.networkType)]
  {
    assert Split("") == [""];
    assert TrimSpace("") == "";
  }

  /**
   * From the API side: networks of one type whose names are trimmed and hold
   * no comma come back unchanged after flatten and getNetworks.  A placement
   * without networks is written as "", which comes back as one network with
   * an empty name.
   */
  lemma NetworksRoundTrip(networks: seq<NetworkSpec>, p: PlacementState)
    requires forall i :: 0 <= i < |networks| ==> networks[i].networkType == p.networkType
    requires forall i :: 0 <= i < |networks| ==>
               Comma !in networks[i].networkName && TrimSpace(networks[i].networkName) == networks[i].networkName
    requires p.networkNames == Some(Join(NetworkNames(networks)))
    ensures Networks(p) == if networks == [] then [NetworkSpec("", p.networkType)] else networks
  {
    if networks == [] {
      assert NetworkNames(networks) == [];
      EmptyNetworkNames(p);
      return;
    }
    var names := NetworkNames(networks);
    SplitJoin(names);
    var result := Networks(p);
    assert |result| == |networks|;
    forall i | 0 <= i < |networks|
      ensures result[i] == networks[i]
    {
      assert Split(p.networkNames.value)[i] == networks[i].networkName;
    }
  }
}
