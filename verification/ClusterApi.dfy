/**
 * The Kubernetes API as the controllers see it: every call first lets the rest of the world take any
 * steps of DriftRuns it likes, and may fail. The cluster records the run it goes through, and which
 * of its steps are an actor's own.
 */
module ClusterApi {
  import opened Prelude
  import opened NodeClassSpecs
  import opened Drift
  import opened DriftRuns

  /** The part of a node class the controller itself maintains. */
  datatype Meta = Meta(deleting: bool, finalizers: seq<string>, ready: Option<bool>, statusHash: string)

  function MetaOf(metas: map<string, Meta>, name: string): Meta {
    if name in metas then metas[name] else Meta(false, [], None, "")
  }

  /** Who a run is looked at for: one class's reconcile, or one claim's provisioning. */
  datatype Actor = Reconciler(name: string) | Provisioner(id: string)

  /** Steps others may take meanwhile: one reconcile per class and one provisioning per claim at a time. */
  predicate Elsewhere(who: Actor, step: Step) {
    match who
    case Reconciler(name) =>
      (match step
       case BeginPass(n) => n != name
       case ListClaims(n) => n != name
       case PatchClaim(n, _) => n != name
       case EndPass(n) => n != name
       case Upgrade(_) => false
       case _ => true)
    case Provisioner(id) =>
      (match step
       case AddClaim(other, _) => other != id
       case BeginCreate(other) => other != id
       case FinishCreate(other, _) => other != id
       case Upgrade(_) => false
       case _ => true)
  }

  /** The steps of a run that are the actor's own, in order. */
  ghost function StepsOf(who: Actor, steps: seq<Step>): seq<Step> {
    if steps == [] then []
    else
      var last := steps[|steps| - 1];
      StepsOf(who, steps[..|steps| - 1]) + (if Elsewhere(who, last) then [] else [last])
  }

  lemma StepsOfSnoc(who: Actor, steps: seq<Step>, last: Step)
    ensures StepsOf(who, steps + [last]) == StepsOf(who, steps) + (if Elsewhere(who, last) then [] else [last])
  {
    assert (steps + [last])[..|steps|] == steps;
  }

  /** The steps of one class's reconcile. */
  ghost function Own(name: string, steps: seq<Step>): seq<Step> {
    StepsOf(Reconciler(name), steps)
  }

  /** The reconcile's own pass and the running version are what they were. */
  ghost predicate SamePass(name: string, s: State, t: State) {
    && t.running == s.running && (name in t.passes <==> name in s.passes)
    && (name in s.passes ==> t.passes[name] == s.passes[name])
  }

  /** So is the provisioning of a claim, unless the claim is gone. */
  ghost predicate SameCreate(id: string, s: State, t: State) {
    && t.running == s.running
    && (id in t.claims ==> id in s.claims && t.claims[id].classRef == s.claims[id].classRef)
    && (id in t.claims && id in s.creates ==> id in t.creates && t.creates[id] == s.creates[id])
  }

  ghost predicate Undisturbed(who: Actor, s: State, t: State) {
    match who
    case Reconciler(name) => SamePass(name, s, t)
    case Provisioner(id) => SameCreate(id, s, t)
  }

  lemma ElsewhereLeavesUndisturbed(hashes: Hashes, s: State, who: Actor, step: Step)
    requires Elsewhere(who, step)
    ensures Undisturbed(who, s, Apply(hashes, s, step))
  {
  }

  datatype Item = Item(id: string, claim: Claim)

  /** `items` lists the entries of `m`, each once, in some order. */
  ghost predicate Enumerates(items: seq<Item>, m: map<string, Claim>) {
    && (forall i :: 0 <= i < |items| ==> items[i].id in m && items[i].claim == m[items[i].id])
    && (forall i, j :: 0 <= i < j < |items| ==> items[i].id != items[j].id)
    && (forall id :: id in m ==> exists i :: 0 <= i < |items| && items[i].id == id)
  }

  lemma EnumeratesSnoc(items: seq<Item>, m: map<string, Claim>, item: Item)
    requires Enumerates(items, m) && item.id !in m
    ensures Enumerates(items + [item], m[item.id := item.claim])
  {
    var longer := items + [item];
    forall id: string | id in m || id == item.id
      ensures exists i :: 0 <= i < |longer| && longer[i].id == id
    {
      if id == item.id {
        assert longer[|items|].id == id;
      } else {
        var i :| 0 <= i < |items| && items[i].id == id;
        assert longer[i].id == id;
      }
    }
  }

  lemma EnumeratesButLast(items: seq<Item>, m: map<string, Claim>)
    requires Enumerates(items, m) && items != []
    ensures Enumerates(items[..|items| - 1], m - {items[|items| - 1].id})
  {
    var earlier, last := items[..|items| - 1], items[|items| - 1];
    forall id | id in m - {last.id}
      ensures exists i :: 0 <= i < |earlier| && earlier[i].id == id
    {
      var i :| 0 <= i < |items| && items[i].id == id;
      assert earlier[i].id == id;
    }
  }

  /** The API server returns a list in whatever order it likes. */
  method Enumerate(found: map<string, Claim>) returns (items: seq<Item>)
    ensures Enumerates(items, found)
  {
    items := [];
    ghost var done: map<string, Claim> := map[];
    var todo := found.Keys;
    while todo != {}
      invariant todo <= found.Keys
      invariant done == map id | id in found && id !in todo :: found[id]
      invariant Enumerates(items, done)
      decreases |todo|
    {
      var id :| id in todo;
      EnumeratesSnoc(items, done, Item(id, found[id]));
      done := done[id := found[id]];
      items := items + [Item(id, found[id])];
      todo := todo - {id};
    }
    assert done == found;
  }

  /** The pass for `name` is running, with the current hash version. */
  ghost predicate Passing(s: State, name: string, pass: Pass) {
    s.running == HASH_VERSION && name in s.passes && s.passes[name] == pass
  }

  /** The pass listed this claim, as this copy. */
  ghost predicate Listed(pass: Pass, item: Item) {
    pass.listed.Some? && item.id in pass.listed.value && pass.listed.value[item.id] == item.claim
  }

  /** The claim, while it exists, refers to this class. */
  ghost predicate RefersTo(s: State, id: string, classRef: Option<string>) {
    id in s.claims ==> s.claims[id].classRef == classRef
  }

  /** The claim is being provisioned from this spec. */
  ghost predicate BeingProvisioned(s: State, id: string, spec: SpecValue) {
    id in s.creates && s.creates[id] == spec
  }

  /** The claim is launched and carries this digest. */
  ghost predicate Stored(s: State, id: string, providerID: string, digest: string) {
    id in s.claims && s.claims[id].providerID == providerID && Lookup(s.claims[id].annotations, HASH_KEY) == digest
  }

  /** The Kubernetes API, with the protocol state it holds and, as a ghost, the run it has gone through. */
  class Cluster {
    const hashes: Hashes
    var state: State
    var meta: map<string, Meta>
    ghost const start: State
    ghost var run: seq<Step>

    constructor (hashes: Hashes, state: State, meta: map<string, Meta>)
      ensures Valid() && this.hashes == hashes && this.state == state && this.meta == meta
      ensures start == state && run == []
    {
      this.hashes, this.state, this.meta := hashes, state, meta;
      this.start, this.run := state, [];
    }

    ghost predicate Valid()
      reads this
    {
      state == Exec(hashes, start, run)
    }

    /** One step of the run, this actor's or anybody's. */
    method Take(who: Actor, step: Step)
      requires Valid()
      modifies this`state, this`run
      ensures Valid() && state == Apply(hashes, old(state), step) && run == old(run) + [step]
      ensures StepsOf(who, run) == StepsOf(who, old(run)) + (if Elsewhere(who, step) then [] else [step])
    {
      ExecSnoc(hashes, start, run, step);
      StepsOfSnoc(who, run, step);
      state := Apply(hashes, state, step);
      run := run + [step];
    }

    /** The rest of the world moves. */
    method Interfere(who: Actor)
      requires Valid()
      modifies this`state, this`run
      ensures Valid() && old(run) <= run && StepsOf(who, run) == StepsOf(who, old(run))
      ensures Undisturbed(who, old(state), state)
    {
      var moves: int := *;
      while moves > 0
        invariant Valid() && old(run) <= run && StepsOf(who, run) == StepsOf(who, old(run))
        invariant Undisturbed(who, old(state), state)
      {
        var step: Step := *;
        if Elsewhere(who, step) {
          ElsewhereLeavesUndisturbed(hashes, state, who, step);
          Take(who, step);
        }
        moves := moves - 1;
      }
    }

    /** List the claims of a class, recording what was listed in the pass. */
    method ListClaims(name: string, ghost spec: SpecValue) returns (ok: bool, items: seq<Item>)
      requires Valid() && Passing(state, name, Pass(spec, None))
      modifies this`state, this`run
      ensures Valid() && old(run) <= run
      ensures if ok then
                && Own(name, run) == Own(name, old(run)) + [Step.ListClaims(name)]
                && exists listed :: Passing(state, name, Pass(spec, Some(listed))) && Enumerates(items, listed)
              else
                Own(name, run) == Own(name, old(run)) && Passing(state, name, Pass(spec, None))
    {
      Interfere(Reconciler(name));
      var listed := ClaimsOf(state.claims, name);
      items := Enumerate(listed);
      ok := *;
      if ok {
        Take(Reconciler(name), Step.ListClaims(name));
        assert Passing(state, name, Pass(spec, Some(listed)));
      }
    }

    /** Read a node class; when there is one, the reconcile's pass begins with the spec just read. */
    method GetNodeClass(name: string) returns (ok: bool, found: Option<SpecValue>)
      requires Valid() && state.running == HASH_VERSION && name !in state.passes
      modifies this`state, this`run
      ensures Valid() && old(run) <= run && state.running == HASH_VERSION
      ensures if ok && found.Some? then
                Own(name, run) == Own(name, old(run)) + [BeginPass(name)]
                && Passing(state, name, Pass(found.value, None))
              else
                Own(name, run) == Own(name, old(run)) && name !in state.passes
      ensures ok && found.None? ==> name !in state.live
    {
      Interfere(Reconciler(name));
      found := if name in state.live then Some(state.live[name]) else None;
      ok := *;
      if ok && found.Some? {
        Take(Reconciler(name), BeginPass(name));
      }
    }

    /**
     * Write a class's metadata under its resource version. A failed call may or may not have reached
     * the server; one that failed with a conflict has not.
     */
    method WriteMeta(name: string, updated: Meta) returns (ok: bool, conflict: bool)
      modifies this`meta
      ensures meta == old(meta) || meta == old(meta)[name := updated]
      ensures ok ==> meta == old(meta)[name := updated]
      ensures conflict ==> !ok && meta == old(meta)
    {
      var reached: bool := *;
      var replied: bool := *;
      ok := reached && replied;
      conflict := *;
      conflict := conflict && !reached;
      if reached {
        meta := meta[name := updated];
      }
    }

    /** The reconcile returns; its pass, if any, is over. */
    method Return(name: string)
      requires Valid()
      modifies this`state, this`run
      ensures Valid() && run == old(run) + [EndPass(name)] && Own(name, run) == Own(name, old(run)) + [EndPass(name)]
      ensures name !in state.passes && state.running == old(state.running)
    {
      Take(Reconciler(name), EndPass(name));
    }

    /**
     * Patch the annotations of a listed claim with the difference between its copy (`from`) and the
     * edited copy (`to`). A failed call may or may not have reached the server.
     */
    method PatchAnnotations(name: string, item: Item, from: map<string, string>, to: map<string, string>,
                            ghost pass: Pass)
      returns (ok: bool)
      requires Valid() && Passing(state, name, pass) && Listed(pass, item) && Eligible(HASH_VERSION, item.claim)
      requires from == item.claim.annotations && to == Stamped(hashes, HASH_VERSION, pass.spec, item.claim)
      modifies this`state, this`run
      ensures Valid() && old(run) <= run && Passing(state, name, pass)
      ensures || Own(name, run) == Own(name, old(run)) + [PatchClaim(name, item.id)]
              || (!ok && Own(name, run) == Own(name, old(run)))
    {
      Interfere(Reconciler(name));
      var reached: bool := *;
      ok := *;
      ok := ok && reached && item.id in state.claims;
      if reached && item.id in state.claims {
        ghost var c := state.claims[item.id];
        ghost var patched := c.(annotations := MergePatch(c.annotations, from, to));
        assert Apply(hashes, state, PatchClaim(name, item.id)) == state.(claims := state.claims[item.id := patched]);
        Take(Reconciler(name), PatchClaim(name, item.id));
      }
    }

    /** Read the node class a claim refers to; where the claim still exists, that begins its provisioning. */
    method GetClassOf(id: string, classRef: Option<string>) returns (found: Result<SpecValue>)
      requires Valid() && state.running == HASH_VERSION && RefersTo(state, id, classRef)
      modifies this`state, this`run
      ensures Valid() && old(run) <= run && state.running == HASH_VERSION && RefersTo(state, id, classRef)
      ensures || StepsOf(Provisioner(id), run) == StepsOf(Provisioner(id), old(run)) + [BeginCreate(id)]
              || (&& StepsOf(Provisioner(id), run) == StepsOf(Provisioner(id), old(run))
                  && (found.Ok? ==> id !in state.claims))
      ensures found.Ok? ==> classRef.Some? && (id in state.claims ==> BeingProvisioned(state, id, found.value))
      ensures found.Err? ==> StepsOf(Provisioner(id), run) == StepsOf(Provisioner(id), old(run))
    {
      Interfere(Provisioner(id));
      var ok: bool := *;
      if !ok {
        return Err("get");
      }
      if classRef.None? || classRef.value !in state.live {
        return Err("not found");
      }
      found := Ok(state.live[classRef.value]);
      if id in state.claims {
        Take(Provisioner(id), BeginCreate(id));
      }
    }

    /**
     * The result of provisioning is stored on the claim, if it still exists: the returned annotations
     * are merged into the claim's own.
     */
    method StoreCreated(id: string, providerID: string, annotations: map<string, string>, ghost spec: SpecValue)
      requires Valid() && state.running == HASH_VERSION && (id in state.claims ==> BeingProvisioned(state, id, spec))
      requires annotations == Stamp(map[], hashes(HASH_VERSION, spec), HASH_VERSION)
      modifies this`state, this`run
      ensures Valid() && old(run) <= run && state.running == HASH_VERSION
      ensures || StepsOf(Provisioner(id), run) == StepsOf(Provisioner(id), old(run)) + [FinishCreate(id, providerID)]
              || StepsOf(Provisioner(id), run) == StepsOf(Provisioner(id), old(run))
      ensures StepsOf(Provisioner(id), run) != StepsOf(Provisioner(id), old(run)) ==>
                id in old(state.claims) && Stored(state, id, providerID, hashes(HASH_VERSION, spec))
    {
      Interfere(Provisioner(id));
      var reached: bool := *;
      if reached && id in state.claims {
        ghost var c := state.claims[id];
        assert Stamped(hashes, HASH_VERSION, spec, c) == c.annotations + annotations;
        Take(Provisioner(id), FinishCreate(id, providerID));
      }
    }
  }
}
