/** The cloud provider: creating a node for a claim, and judging drift against the live node class. */
module CloudProvider {
  import opened Prelude
  import opened GoStrings
  import opened Int64
  import opened NodeClassSpecs
  import opened Drift
  import opened InstanceProvider
  import opened InstanceTypes

  const PROVIDER_ID_PREFIX := "upcloud:////"
  const UNREGISTERED_TAINT := Taint("karpenter.sh/unregistered", "", "NoExecute")

  datatype Requirement = Requirement(key: string, values: seq<string>)

  /** The claim Karpenter asks a node for. */
  datatype ClaimRequest = ClaimRequest(
    classRef: Option<string>, requirements: seq<Requirement>, labels: map<string, string>, taints: seq<Taint>)

  datatype ServerDetails = ServerDetails(uuid: string, hostname: string, cores: int64, memoryMiB: int64)

  datatype Capacity = Capacity(cpu: int64, memoryBytes: int64, pods: int)

  /** What Create returns, along with the request it sent. */
  datatype Created = Created(
    name: string, labels: map<string, string>, annotations: map<string, string>, className: string,
    providerID: string, nodeName: string, capacity: Capacity, allocatable: Capacity, request: CreateRequest)

  /** The outside world of one Create call. */
  datatype World = World(
    serverName: string,
    caBundle: Result<string>,
    certificate: Result<string>,
    userData: (map<string, string>, seq<Taint>) -> Result<string>,
    createServer: CreateRequest -> Result<ServerDetails>)

  predicate FirstRequirement(reqs: seq<Requirement>, key: string, i: nat) {
    i < |reqs| && reqs[i].key == key && forall j :: 0 <= j < i ==> reqs[j].key != key
  }

  /** instanceTypeRequirement: the first requirement on the instance type. */
  method InstanceTypeRequirement(reqs: seq<Requirement>) returns (found: Option<Requirement>)
    ensures match found
            case Some(r) => exists i: nat :: FirstRequirement(reqs, INSTANCE_TYPE, i) && reqs[i] == r
            case None => forall j :: 0 <= j < |reqs| ==> reqs[j].key != INSTANCE_TYPE
  {
    var i := 0;
    while i < |reqs|
      invariant 0 <= i <= |reqs|
      invariant forall j :: 0 <= j < i ==> reqs[j].key != INSTANCE_TYPE
    {
      if reqs[i].key == INSTANCE_TYPE {
        assert FirstRequirement(reqs, INSTANCE_TYPE, i);
        return Some(reqs[i]);
      }
      i := i + 1;
    }
    found := None;
  }

  /** The plan a claim runs on: the one Karpenter selected, or else the node class's. */
  ghost predicate ChosenPlan(plan: string, classPlan: string, reqs: seq<Requirement>) {
    if exists i: nat :: FirstRequirement(reqs, INSTANCE_TYPE, i) && reqs[i].values != []
    then exists i: nat :: FirstRequirement(reqs, INSTANCE_TYPE, i) && reqs[i].values != [] && plan == reqs[i].values[0]
    else plan == classPlan
  }

  /** In other words: the first value of the first instance-type requirement, where there are both. */
  lemma PlanTells(plan: string, classPlan: string, reqs: seq<Requirement>, i: nat)
    requires ChosenPlan(plan, classPlan, reqs)
    ensures (forall j :: 0 <= j < |reqs| ==> reqs[j].key != INSTANCE_TYPE) ==> plan == classPlan
    ensures i < |reqs| && reqs[i].key == INSTANCE_TYPE && (forall j :: 0 <= j < i ==> reqs[j].key != INSTANCE_TYPE) ==>
              plan == if |reqs[i].values| > 0 then reqs[i].values[0] else classPlan
  {
    if i < |reqs| && reqs[i].key == INSTANCE_TYPE && (forall j :: 0 <= j < i ==> reqs[j].key != INSTANCE_TYPE) {
      assert FirstRequirement(reqs, INSTANCE_TYPE, i);
    }
  }

  method ChoosePlan(classPlan: string, reqs: seq<Requirement>) returns (plan: string)
    ensures ChosenPlan(plan, classPlan, reqs)
  {
    plan := classPlan;
    var found := InstanceTypeRequirement(reqs);
    if found.Some? && |found.value.values| > 0 {
      plan := found.value.values[0];
    }
  }

  function BaseLabels(zone: string, plan: string): map<string, string> {
    map["topology.kubernetes.io/region" := zone,
        ZONE := zone,
        "failure-domain.beta.kubernetes.io/region" := zone,
        "failure-domain.beta.kubernetes.io/zone" := zone,
        INSTANCE_TYPE := plan,
        ARCH := "amd64",
        OS := "linux",
        CAPACITY_TYPE := CapacityType(plan)]
  }

  /** One source of lo.Assign, copied entry by entry in the map's order. */
  method CopyInto(target: LabelMap, source: map<string, string>)
    modifies target
    ensures target.entries == old(target.entries) + source
  {
    var todo := source.Keys;
    while todo != {}
      invariant todo <= source.Keys
      invariant target.entries == old(target.entries) + (map k | k in source && k !in todo :: source[k])
      decreases |todo|
    {
      var k :| k in todo;
      target.entries := target.entries[k := source[k]];
      todo := todo - {k};
    }
    assert (map k | k in source && k !in todo :: source[k]) == source;
  }

  /** lo.Assign: a new map, later sources winning. */
  method Assign(sources: seq<map<string, string>>) returns (merged: LabelMap)
    ensures fresh(merged) && merged.entries == Merge(sources)
  {
    merged := new LabelMap(map[]);
    var i := 0;
    while i < |sources|
      invariant 0 <= i <= |sources|
      invariant merged.entries == Merge(sources[..i])
    {
      CopyInto(merged, sources[i]);
      assert sources[..i + 1][..i] == sources[..i];
      i := i + 1;
    }
    assert sources[..i] == sources;
  }

  function Merge(sources: seq<map<string, string>>): map<string, string> {
    if sources == [] then map[] else Merge(sources[..|sources| - 1]) + sources[|sources| - 1]
  }

  lemma MergeSnoc(sources: seq<map<string, string>>, last: map<string, string>)
    ensures Merge(sources + [last]) == Merge(sources) + last
  {
    assert (sources + [last])[..|sources|] == sources;
  }

  /** The root disk to ask for: the plan's bundled one, which keeps only the encryption flag, or the class's. */
  function EffectiveStorage(storage: Option<StorageValue>, plan: Option<InstanceTypes.Plan>): Option<StorageValue> {
    if plan.Some? && plan.value.storageSize > 0
    then Some(StorageValue(plan.value.storageSize, "", if storage.None? then None else storage.value.encrypted))
    else storage
  }

  /** The override, on heap objects: the class's Storage object is shared or left behind, never written. */
  method OverrideStorage(storage: StorageSpec?, plan: Option<InstanceTypes.Plan>) returns (effective: StorageSpec?)
    ensures StorageOf(effective) == EffectiveStorage(StorageOf(storage), plan)
    ensures effective == storage || fresh(effective)
  {
    effective := storage;
    if plan.Some? && plan.value.storageSize > 0 {
      var encrypted: BoolBox? := null;
      if storage != null {
        encrypted := storage.encrypted;
      }
      effective := new StorageSpec(plan.value.storageSize, "", encrypted);
    }
  }

  /** The create request as the node class, the plan and the provider determine it. */
  ghost predicate RequestFor(r: CreateRequest, spec: SpecValue, plan: string, zone: string,
                             catalogue: map<string, InstanceTypes.Plan>, provider: InstanceProvider.Provider,
                             world: World) {
    && Managed(r.labels)
    && Lists(r.labels, Marked(spec.labels.GetOr(map[]), provider.clusterID, provider.clusterName, world.serverName))
    && r.plan == plan && r.zone == zone && r.hostname == r.title == world.serverName
    && r.serverGroup == spec.serverGroupUUID && r.interfaces == Interfaces(provider.networkUUID) && r.metadata
    && r.devices == [DeviceFor(provider.templateUUID, world.serverName,
                               EffectiveStorage(spec.storage, PlanOf(catalogue, plan)))]
  }

  /** The labels sent to the server API: the class's own, in a map of their own. */
  method ServerLabels(nodeClass: NodeClassSpec, ghost spec: SpecValue) returns (labels: LabelMap)
    requires nodeClass.Value() == spec
    ensures fresh(labels) && labels.entries == spec.labels.GetOr(map[])
  {
    var classLabels := if nodeClass.labels == null then map[] else nodeClass.labels.entries;
    labels := Assign([classLabels]);
    MergeSnoc([], classLabels);
    assert [] + [classLabels] == [classLabels] && map[] + classLabels == classLabels;
  }

  function PlanOf(catalogue: map<string, InstanceTypes.Plan>, plan: string): Option<InstanceTypes.Plan> {
    if plan in catalogue then Some(catalogue[plan]) else None
  }

  /** Server labels and storage, and the request built from them. */
  method Provision(nodeClass: NodeClassSpec, ghost spec: SpecValue, plan: string, zone: string,
                   catalogue: map<string, InstanceTypes.Plan>,
                   provider: InstanceProvider.Provider, userData: string, world: World)
    returns (request: CreateRequest)
    requires nodeClass.Value() == spec
    ensures nodeClass.Value() == spec
    ensures RequestFor(request, spec, plan, zone, catalogue, provider, world)
    ensures request.userData == userData
  {
    var serverLabels := ServerLabels(nodeClass, spec);
    var storage := OverrideStorage(nodeClass.storage, PlanOf(catalogue, plan));
    request := provider.Create(world.serverName, plan, zone, userData, nodeClass.serverGroupUUID, serverLabels,
                               storage);
  }

  /** Labels, taints and user data of the node. */
  method NodeConfig(nodeClass: NodeClassSpec, ghost spec: SpecValue, claim: ClaimRequest, zone: string, plan: string,
                    world: World)
    returns (labels: map<string, string>, userData: Result<string>)
    requires nodeClass.Value() == spec
    ensures nodeClass.Value() == spec
    ensures labels == LabelsFor(spec, plan, claim, zone)
    ensures userData == UserDataFor(spec, plan, claim, zone, world)
  {
    var classLabels := if nodeClass.labels == null then map[] else nodeClass.labels.entries;
    var nodeLabels := Assign([BaseLabels(zone, plan), classLabels, claim.labels]);
    labels := nodeLabels.entries;
    var taints := [UNREGISTERED_TAINT];
    taints := taints + if nodeClass.taints == null then [] else nodeClass.taints[..];
    taints := taints + claim.taints;
    userData := world.userData(labels, taints);
  }

  /** The labels of the node. */
  function LabelsFor(spec: SpecValue, plan: string, claim: ClaimRequest, zone: string): map<string, string> {
    Merge([BaseLabels(zone, plan), spec.labels.GetOr(map[]), claim.labels])
  }

  function UserDataFor(spec: SpecValue, plan: string, claim: ClaimRequest, zone: string, world: World): Result<string> {
    world.userData(LabelsFor(spec, plan, claim, zone), [UNREGISTERED_TAINT] + spec.taints.GetOr([]) + claim.taints)
  }

  /** What a claim returned by Create says. */
  ghost predicate CreatedFrom(c: Created, spec: SpecValue, plan: string, claim: ClaimRequest, zone: string,
                              catalogue: map<string, InstanceTypes.Plan>, provider: InstanceProvider.Provider,
                              h: Hasher, world: World) {
    && claim.classRef == Some(c.className)
    && c.annotations == Stamp(map[], HashOf(h, spec), HASH_VERSION)
    && c.labels == LabelsFor(spec, plan, claim, zone)
    && RequestFor(c.request, spec, plan, zone, catalogue, provider, world)
    && UserDataFor(spec, plan, claim, zone, world) == Ok(c.request.userData)
    && Reports(c, world)
  }

  /** One of the calls Create makes fails, the last of them on the very request for this spec and plan. */
  ghost predicate SomeCallFails(spec: SpecValue, plan: string, claim: ClaimRequest, zone: string,
                                catalogue: map<string, InstanceTypes.Plan>, provider: InstanceProvider.Provider,
                                world: World) {
    || world.caBundle.Err? || world.certificate.Err? || UserDataFor(spec, plan, claim, zone, world).Err?
    || exists r :: && RequestFor(r, spec, plan, zone, catalogue, provider, world)
                   && UserDataFor(spec, plan, claim, zone, world) == Ok(r.userData) && world.createServer(r).Err?
  }

  /**
   * Create. It has no `modifies`: although the instance provider writes its markers into the label
   * map it is handed, and shares the Storage object, the node class is left exactly as read, so the
   * digest stamped at the end is that of the spec the server was provisioned from. The server is
   * recognisably ours, claim labels win over class labels over computed ones, and the user data got
   * the node's labels and the three taint groups in order. It fails only when the class cannot be
   * resolved (`fetched` is the answer to reading it) or one of the calls it makes fails.
   */
  method Create(claim: ClaimRequest, fetched: Result<NodeClassSpec>, ghost spec: SpecValue, zone: string,
                catalogue: map<string, InstanceTypes.Plan>, provider: InstanceProvider.Provider, h: Hasher,
                world: World)
    returns (created: Result<Created>, ghost plan: string)
    requires fetched.Ok? ==> fetched.value.Value() == spec
    ensures fetched.Ok? ==> fetched.value.Value() == spec
    ensures claim.classRef.None? || fetched.Err? ==> created.Err?
    ensures claim.classRef.Some? && fetched.Ok? ==>
              && ChosenPlan(plan, spec.plan, claim.requirements)
              && (world.caBundle.Err? || world.certificate.Err? ==> created.Err?)
              && (created.Ok? ==> CreatedFrom(created.value, spec, plan, claim, zone, catalogue, provider, h, world))
              && (created.Err? ==> SomeCallFails(spec, plan, claim, zone, catalogue, provider, world))
  {
    if claim.classRef.None? {
      return Err("resolving node class: not found"), "";
    }
    if fetched.Err? {
      return Err("resolving node class: " + fetched.message), "";
    }
    created, plan := CreateFor(fetched.value, spec, claim, zone, catalogue, provider, h, world);
  }

  /** The rest of Create, for the node class that was read. */
  method CreateFor(nodeClass: NodeClassSpec, ghost spec: SpecValue, claim: ClaimRequest, zone: string,
                   catalogue: map<string, InstanceTypes.Plan>, provider: InstanceProvider.Provider, h: Hasher,
                   world: World)
    returns (created: Result<Created>, ghost plan: string)
    requires nodeClass.Value() == spec && claim.classRef.Some?
    ensures nodeClass.Value() == spec && ChosenPlan(plan, spec.plan, claim.requirements)
    ensures world.caBundle.Err? || world.certificate.Err? ==> created.Err?
    ensures created.Ok? ==> CreatedFrom(created.value, spec, plan, claim, zone, catalogue, provider, h, world)
    ensures created.Err? ==> SomeCallFails(spec, plan, claim, zone, catalogue, provider, world)
  {
    var chosen := ChoosePlan(nodeClass.plan, claim.requirements);
    plan := chosen;
    if world.caBundle.Err? {
      return Err(world.caBundle.message), plan;
    }
    if world.certificate.Err? {
      return Err(world.certificate.message), plan;
    }
    var labels, userData := NodeConfig(nodeClass, spec, claim, zone, chosen, world);
    if userData.Err? {
      return Err(userData.message), plan;
    }
    created := Request(nodeClass, spec, chosen, claim, zone, catalogue, provider, h, world, labels, userData.value);
  }

  /** The last part of Create: request the server, and report it with the stamp of the class. */
  method Request(nodeClass: NodeClassSpec, ghost spec: SpecValue, plan: string, claim: ClaimRequest, zone: string,
                 catalogue: map<string, InstanceTypes.Plan>, provider: InstanceProvider.Provider, h: Hasher,
                 world: World, labels: map<string, string>, userData: string)
    returns (created: Result<Created>)
    requires nodeClass.Value() == spec && claim.classRef.Some? && labels == LabelsFor(spec, plan, claim, zone)
    requires UserDataFor(spec, plan, claim, zone, world) == Ok(userData)
    ensures nodeClass.Value() == spec
    ensures created.Ok? ==> CreatedFrom(created.value, spec, plan, claim, zone, catalogue, provider, h, world)
    ensures created.Err? ==> SomeCallFails(spec, plan, claim, zone, catalogue, provider, world)
  {
    var request := Provision(nodeClass, spec, plan, zone, catalogue, provider, userData, world);
    var server := world.createServer(request);
    if server.Err? {
      return Err(server.message);
    }
    var digest := nodeClass.Hash(h);
    var capacity := Capacity(server.value.cores, WrappingBytes(server.value.memoryMiB), POD_LIMIT);
    created := Ok(Created(world.serverName, labels, Stamp(map[], digest, HASH_VERSION), claim.classRef.value,
                          PROVIDER_ID_PREFIX + server.value.uuid, server.value.hostname, capacity, capacity, request));
  }

  /** The claim reports the server the cloud made of the request. */
  ghost predicate Reports(c: Created, world: World) {
    var server := world.createServer(c.request);
    && server.Ok? && c.name == world.serverName
    && c.providerID == PROVIDER_ID_PREFIX + server.value.uuid && c.nodeName == server.value.hostname
    && c.capacity == Capacity(server.value.cores, WrappingBytes(server.value.memoryMiB), POD_LIMIT)
    && c.allocatable == c.capacity
  }

  /** IsDrifted over the class object just read; `nodeClass` is null when it was not found. */
  method JudgeDrift(nodeClass: NodeClassSpec?, failed: bool, claim: Claim, h: Hasher, ghost hashes: Hashes)
    returns (verdict: Verdict, warned: bool)
    requires forall v :: hashes(HASH_VERSION, v) == HashOf(h, v)
    ensures var resolved := if failed then Failed else if nodeClass == null then NotFound else Found(nodeClass.Value());
            verdict == IsDrifted(hashes, HASH_VERSION, resolved, claim)
    ensures warned <==> !failed && nodeClass == null
  {
    if failed {
      return Error, false;
    }
    if nodeClass == null {
      return NotDrifted, true;
    }
    var stored := Lookup(claim.annotations, HASH_KEY);
    if stored == "" {
      return NotDrifted, false;
    }
    if Lookup(claim.annotations, VERSION_KEY) != HASH_VERSION {
      return NotDrifted, false;
    }
    var digest := nodeClass.Hash(h);
    verdict := if stored != digest then NodeClassDrifted else NotDrifted;
    warned := false;
  }

  /**
   * A claim carrying the annotations Create returned is not drifted against the spec it was created
   * from, nor against any other way of writing that spec.
   */
  lemma CreatedClaimIsNotDrifted(h: Hasher, hashes: Hashes, spec: SpecValue, rewritten: SpecValue, c: Claim)
    requires OrderFree(h) && Normal(spec) == Normal(rewritten)
    requires forall v :: hashes(HASH_VERSION, v) == HashOf(h, v)
    requires c.annotations == Stamp(map[], HashOf(h, spec), HASH_VERSION)
    ensures IsDrifted(hashes, HASH_VERSION, Found(rewritten), c) == NotDrifted
  {
    HashRespectsNormalForm(h, spec, rewritten);
  }

  /** Claim labels win over class labels, and those over the computed ones. */
  lemma LabelPrecedence(base: map<string, string>, class_: map<string, string>, claim: map<string, string>, k: string)
    ensures var merged := Merge([base, class_, claim]);
            && (k in merged <==> k in base || k in class_ || k in claim)
            && (k in claim ==> merged[k] == claim[k])
            && (k !in claim && k in class_ ==> merged[k] == class_[k])
            && (k !in claim && k !in class_ && k in base ==> merged[k] == base[k])
  {
    MergeSnoc([], base);
    MergeSnoc([base], class_);
    MergeSnoc([base, class_], claim);
    assert [] + [base] == [base] && [base] + [class_] == [base, class_];
    assert [base, class_] + [claim] == [base, class_, claim];
  }

  /** The labels Create computes itself, by name. */
  lemma ComputedLabels(zone: string, plan: string, k: string)
    ensures k in BaseLabels(zone, plan) <==> Computed(zone, plan, k).Some?
    ensures k in BaseLabels(zone, plan) ==> BaseLabels(zone, plan)[k] == Computed(zone, plan, k).value
  {
    KeysDiffer();
    SpotExactly(plan);
  }

  ghost function Computed(zone: string, plan: string, k: string): Option<string> {
    if k == "topology.kubernetes.io/region" || k == "topology.kubernetes.io/zone" then Some(zone)
    else if k == "failure-domain.beta.kubernetes.io/region" then Some(zone)
    else if k == "failure-domain.beta.kubernetes.io/zone" then Some(zone)
    else if k == "node.kubernetes.io/instance-type" then Some(plan)
    else if k == "kubernetes.io/arch" then Some("amd64")
    else if k == "kubernetes.io/os" then Some("linux")
    else if k == "karpenter.sh/capacity-type" then
      Some(if exists i: nat :: SpotAt(plan, i) then "spot" else "on-demand")
    else None
  }

  lemma KeysDiffer()
    ensures |"topology.kubernetes.io/region"| == 29 && |ZONE| == 27
    ensures |"failure-domain.beta.kubernetes.io/region"| == 40 && |"failure-domain.beta.kubernetes.io/zone"| == 38
    ensures |INSTANCE_TYPE| == 32 && |ARCH| == 18 && |OS| == 16 && |CAPACITY_TYPE| == 26
  {
  }

  /**
   * The node's labels, of any claim that Create returns: the claim's own with their values, then the
   * class's that the claim does not set, then the computed ones that neither sets; and no others.
   */
  lemma NodeLabelsTell(c: Created, spec: SpecValue, plan: string, claim: ClaimRequest, zone: string,
                       catalogue: map<string, InstanceTypes.Plan>, provider: InstanceProvider.Provider, h: Hasher,
                       world: World, k: string)
    requires CreatedFrom(c, spec, plan, claim, zone, catalogue, provider, h, world)
    ensures var classLabels := spec.labels.GetOr(map[]);
            && (k in c.labels <==> k in claim.labels || k in classLabels || Computed(zone, plan, k).Some?)
            && (k in c.labels ==>
                  c.labels[k] == if k in claim.labels then claim.labels[k]
                                 else if k in classLabels then classLabels[k]
                                 else Computed(zone, plan, k).value)
  {
    LabelPrecedence(BaseLabels(zone, plan), spec.labels.GetOr(map[]), claim.labels, k);
    ComputedLabels(zone, plan, k);
  }

  /**
   * The rest of what Create returns and sends: the class's name, the stamp, the three groups of taints
   * in order, the plan's bundled disk (without tier, and encrypted as the class says) or else the
   * class's, and the server group.
   */
  lemma CreatedTells(c: Created, spec: SpecValue, plan: string, claim: ClaimRequest, zone: string,
                     catalogue: map<string, InstanceTypes.Plan>, provider: InstanceProvider.Provider, h: Hasher,
                     world: World)
    requires CreatedFrom(c, spec, plan, claim, zone, catalogue, provider, h, world)
    ensures claim.classRef == Some(c.className) && c.name == world.serverName
    ensures HASH_KEY in c.annotations && c.annotations[HASH_KEY] == HashOf(h, spec)
    ensures VERSION_KEY in c.annotations && c.annotations[VERSION_KEY] == "v2"
    ensures forall k :: k in c.annotations ==> k == HASH_KEY || k == VERSION_KEY
    ensures var taints := [Taint("karpenter.sh/unregistered", "", "NoExecute")] + spec.taints.GetOr([]) + claim.taints;
            world.userData(c.labels, taints) == Ok(c.request.userData)
    ensures c.request.plan == plan && c.request.zone == zone && c.request.serverGroup == spec.serverGroupUUID
    ensures |c.request.devices| == 1 && c.request.devices[0].template == provider.templateUUID
    ensures var d := c.request.devices[0];
            if plan in catalogue && catalogue[plan].storageSize > 0 then
              && d.size == catalogue[plan].storageSize && d.tier == ""
              && d.encrypted == (if spec.storage.Some? then spec.storage.value.encrypted else None)
            else if spec.storage.Some? then
              && d.size == (if spec.storage.value.size > 0 then spec.storage.value.size else 0)
              && d.tier == spec.storage.value.tier && d.encrypted == spec.storage.value.encrypted
            else
              d.size == 0 && d.tier == "" && d.encrypted == None
    ensures c.capacity.pods == 110 && c.allocatable == c.capacity
    ensures var server := world.createServer(c.request);
            && server.Ok? && c.providerID == "upcloud:////" + server.value.uuid && c.nodeName == server.value.hostname
            && c.capacity.cpu == server.value.cores && c.capacity.memoryBytes == Wrap(server.value.memoryMiB * MIB)
  {
    KeysOfStamp();
    WrappingBytesModulo(world.createServer(c.request).value.memoryMiB);
  }

  /** The request's server labels, one of each: the four markers, and the class's labels beside them. */
  lemma RequestLabelsTell(r: CreateRequest, spec: SpecValue, plan: string, zone: string,
                          catalogue: map<string, InstanceTypes.Plan>, provider: InstanceProvider.Provider, world: World,
                          l: Label)
    requires RequestFor(r, spec, plan, zone, catalogue, provider, world)
    ensures l in r.labels
       <==> if l.key == "managed_by" then l.value == "karpenter"
            else if l.key == "capu_cluster_id" then l.value == provider.clusterID
            else if l.key == "capu_cluster_name" then l.value == provider.clusterName
            else if l.key == "capu_generated_name" then l.value == world.serverName
            else l.key in spec.labels.GetOr(map[]) && spec.labels.GetOr(map[])[l.key] == l.value
    ensures r.hostname == world.serverName && r.title == world.serverName && r.metadata && |r.interfaces| == 3
  {
    var user := spec.labels.GetOr(map[]);
    MarkedExactly(user, provider.clusterID, provider.clusterName, world.serverName, l.key);
    if l.key in Marked(user, provider.clusterID, provider.clusterName, world.serverName) {
      var i :| 0 <= i < |r.labels| && r.labels[i].key == l.key;
      assert r.labels[i] in r.labels;
    }
  }

  lemma KeysOfStamp()
    ensures HASH_KEY != VERSION_KEY
  {
    assert |HASH_KEY| != |VERSION_KEY|;
  }
}
