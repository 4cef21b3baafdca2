/**
 * Provisioning a claim over a cluster that others keep changing: the cloud provider's Create between
 * reading the node class and the storing of its result. Its contract says which steps of the drift
 * protocol that is.
 */
module Provisioning {
  import opened Prelude
  import opened NodeClassSpecs
  import opened Drift
  import opened DriftRuns
  import opened ClusterApi
  import opened CloudProvider
  import InstanceProvider
  import InstanceTypes

  /** The complete and interrupted courses of one provisioning. */
  ghost predicate Course(own: seq<Step>, id: string, created: Result<Created>) {
    || own == [] || own == [BeginCreate(id)]
    || (created.Ok? && own == [BeginCreate(id), FinishCreate(id, created.value.providerID)])
  }

  /** The answer of the API as Create gets it: a class object of its own, or the error. */
  method Fetched(found: Result<SpecValue>) returns (fetched: Result<NodeClassSpec>, ghost spec: SpecValue)
    ensures fetched.Ok? <==> found.Ok?
    ensures found.Ok? ==> fetched.value.Value() == spec == found.value
  {
    if found.Err? {
      return Err(found.message), *;
    }
    var nodeClass := Decode(found.value);
    fetched, spec := Ok(nodeClass), found.value;
  }

  /** Create on the class as it was read, or on the failed read. It cannot touch the cluster. */
  method Launch(claim: ClaimRequest, found: Result<SpecValue>, zone: string, catalogue: map<string, InstanceTypes.Plan>,
                provider: InstanceProvider.Provider, h: Hasher, world: World)
    returns (created: Result<Created>, ghost plan: string)
    ensures claim.classRef.None? || found.Err? ==> created.Err?
    ensures created.Ok? ==> CreatedFrom(created.value, found.value, plan, claim, zone, catalogue, provider, h, world)
  {
    var fetched;
    ghost var spec;
    fetched, spec := Fetched(found);
    created, plan := Create(claim, fetched, spec, zone, catalogue, provider, h, world);
  }

  /** The last leg: a successful result is stored on the claim, or that fails or comes too late. */
  method Conclude(cluster: Cluster, id: string, created: Result<Created>, ghost found: Result<SpecValue>,
                  ghost before: seq<Step>, ghost begun: seq<Step>)
    returns (ghost own: seq<Step>)
    requires cluster.Valid() && cluster.state.running == HASH_VERSION
    requires StepsOf(Provisioner(id), cluster.run) == before + begun
    requires begun == [BeginCreate(id)] || (begun == [] && (created.Ok? ==> id !in cluster.state.claims))
    requires created.Ok? ==>
               && found.Ok?
               && created.value.annotations == Stamp(map[], cluster.hashes(HASH_VERSION, found.value), HASH_VERSION)
               && (id in cluster.state.claims ==> BeingProvisioned(cluster.state, id, found.value))
    modifies cluster`state, cluster`run
    ensures cluster.Valid() && old(cluster.run) <= cluster.run
    ensures StepsOf(Provisioner(id), cluster.run) == before + own && Course(own, id, created)
    ensures |own| == 2 ==>
              Stored(cluster.state, id, created.value.providerID, cluster.hashes(HASH_VERSION, found.value))
  {
    own := begun;
    if created.Ok? {
      cluster.StoreCreated(id, created.value.providerID, created.value.annotations, found.value);
      if StepsOf(Provisioner(id), cluster.run) != before + begun {
        own := begun + [FinishCreate(id, created.value.providerID)];
        assert before + begun + [FinishCreate(id, created.value.providerID)] == before + own;
      }
    }
  }

  /**
   * One provisioning of one claim. Whatever the rest of the world does meanwhile (edit the class,
   * re-baseline, annotate or remove the claim), the cluster goes through a run of the drift protocol;
   * its own steps are the read of the class and, only after a successful Create, the stamp. The stamp
   * is the digest of the spec that was read, from which the server was requested.
   */
  method Provision(cluster: Cluster, id: string, claim: ClaimRequest, zone: string,
                   catalogue: map<string, InstanceTypes.Plan>, provider: InstanceProvider.Provider, h: Hasher,
                   world: World)
    returns (created: Result<Created>, ghost own: seq<Step>, ghost read: Result<SpecValue>, ghost plan: string)
    requires cluster.Valid() && cluster.state.running == HASH_VERSION && RefersTo(cluster.state, id, claim.classRef)
    requires forall v :: cluster.hashes(HASH_VERSION, v) == HashOf(h, v)
    modifies cluster`state, cluster`run
    ensures cluster.Valid() && old(cluster.run) <= cluster.run
    ensures StepsOf(Provisioner(id), cluster.run) == StepsOf(Provisioner(id), old(cluster.run)) + own
    ensures Course(own, id, created) && (read.Err? ==> created.Err?)
    ensures created.Ok? ==> CreatedFrom(created.value, read.value, plan, claim, zone, catalogue, provider, h, world)
    ensures |own| == 2 ==> Stored(cluster.state, id, created.value.providerID, cluster.hashes(HASH_VERSION, read.value))
  {
    ghost var before := StepsOf(Provisioner(id), cluster.run);
    var found := cluster.GetClassOf(id, claim.classRef);
    ghost var begun := if StepsOf(Provisioner(id), cluster.run) == before then [] else [BeginCreate(id)];
    read := found;
    created, plan := Launch(claim, found, zone, catalogue, provider, h, world);
    own := Conclude(cluster, id, created, found, before, begun);
  }
}
