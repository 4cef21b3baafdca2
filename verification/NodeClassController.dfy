/**
 * The node class controller's code over a cluster that others keep changing. Its contracts say that
 * whatever happens is a run of DriftRuns, and which of the run's steps are the controller's own.
 */
module NodeClassController {
  import opened Prelude
  import opened NodeClassSpecs
  import opened Drift
  import opened DriftRuns
  import opened RebaselinePass
  import opened ClusterApi

  const FINALIZER := "upcloud.com/nodeclass-finalizer"

  /** The listed claims a pass has to patch, in the order it comes to them. */
  ghost function EligibleIds(running: string, items: seq<Item>): seq<string> {
    if items == [] then []
    else
      var last := items[|items| - 1];
      EligibleIds(running, items[..|items| - 1]) + (if Eligible(running, last.claim) then [last.id] else [])
  }

  lemma EligibleIdsSnoc(running: string, items: seq<Item>, i: nat)
    requires i < |items|
    ensures EligibleIds(running, items[..i + 1])
         == EligibleIds(running, items[..i]) + (if Eligible(running, items[i].claim) then [items[i].id] else [])
  {
    assert items[..i + 1][..i] == items[..i];
  }

  /** Each eligible listed claim occurs in EligibleIds, once, and nothing else does. */
  lemma {:induction false} EligibleIdsExact(running: string, items: seq<Item>, m: map<string, Claim>)
    requires Enumerates(items, m)
    ensures var ids := EligibleIds(running, items);
            && (forall i, j :: 0 <= i < j < |ids| ==> ids[i] != ids[j])
            && (forall id :: id in ids <==> id in m && Eligible(running, m[id]))
    decreases |items|
  {
    if items == [] {
      assert m == map[];
    } else {
      var last := items[|items| - 1];
      var earlier := items[..|items| - 1];
      EnumeratesButLast(items, m);
      EligibleIdsExact(running, earlier, m - {last.id});
    }
  }

  /** The patch a claim calls for, if any. */
  function PatchFor(name: string, item: Item): seq<Step> {
    if Eligible(HASH_VERSION, item.claim) then [PatchClaim(name, item.id)] else []
  }

  /** The two annotation writes, on the copy of the claim. */
  method StampCopy(claim: Claim, nodeClass: NodeClassSpec, h: Hasher) returns (edited: Claim)
    ensures edited == claim.(annotations := Stamp(claim.annotations, HashOf(h, nodeClass.Value()), HASH_VERSION))
  {
    var digest := nodeClass.Hash(h);
    edited := claim.(annotations := claim.annotations[HASH_KEY := digest]);
    edited := edited.(annotations := edited.annotations[VERSION_KEY := HASH_VERSION]);
  }

  /** The part of the loop body that writes: edit the copy and patch the difference. */
  method RestampClaim(cluster: Cluster, name: string, nodeClass: NodeClassSpec, h: Hasher, item: Item, ghost pass: Pass)
    returns (ok: bool, edited: Claim)
    requires cluster.Valid() && Passing(cluster.state, name, pass) && nodeClass.Value() == pass.spec
    requires cluster.hashes(HASH_VERSION, pass.spec) == HashOf(h, pass.spec)
    requires Listed(pass, item) && Eligible(HASH_VERSION, item.claim)
    modifies cluster`state, cluster`run
    ensures cluster.Valid() && old(cluster.run) <= cluster.run
    ensures Passing(cluster.state, name, pass) && nodeClass.Value() == pass.spec
    ensures || Own(name, cluster.run) == Own(name, old(cluster.run)) + [PatchClaim(name, item.id)]
            || (!ok && Own(name, cluster.run) == Own(name, old(cluster.run)))
    ensures edited == Rebaseline(cluster.hashes, HASH_VERSION, pass.spec, item.claim)
  {
    edited := StampCopy(item.claim, nodeClass, h);
    ok := cluster.PatchAnnotations(name, item, item.claim.annotations, edited.annotations, pass);
  }

  /** The loop body: skip the claim or re-stamp it. */
  method VisitClaim(cluster: Cluster, name: string, nodeClass: NodeClassSpec, h: Hasher, item: Item, ghost pass: Pass)
    returns (ok: bool, edited: Claim)
    requires cluster.Valid() && Passing(cluster.state, name, pass) && nodeClass.Value() == pass.spec
    requires cluster.hashes(HASH_VERSION, pass.spec) == HashOf(h, pass.spec)
    requires Listed(pass, item)
    modifies cluster`state, cluster`run
    ensures cluster.Valid() && old(cluster.run) <= cluster.run
    ensures Passing(cluster.state, name, pass) && nodeClass.Value() == pass.spec
    ensures || Own(name, cluster.run) == Own(name, old(cluster.run)) + PatchFor(name, item)
            || (!ok && Own(name, cluster.run) == Own(name, old(cluster.run)))
    ensures edited == Rebaseline(cluster.hashes, HASH_VERSION, pass.spec, item.claim)
  {
    ok, edited := true, item.claim;
    var hasHash := HASH_KEY in item.claim.annotations;
    if !hasHash && item.claim.providerID == "" {
      return;
    }
    if hasHash && Lookup(item.claim.annotations, VERSION_KEY) == HASH_VERSION {
      return;
    }
    if item.claim.drifted {
      return;
    }
    ok, edited := RestampClaim(cluster, name, nodeClass, h, item, pass);
  }

  datatype PassError = ListFailed | PatchFailed(id: string)

  /** The steps of a pass that has gone through the first `visited` of the claims it listed. */
  ghost function PassSteps(name: string, listing: seq<Item>, visited: nat): seq<Step>
    requires visited <= |listing|
  {
    [Step.ListClaims(name)] + PatchSteps(name, listing, visited)
  }

  /** The patches of a pass that has gone through the first `visited` of the claims it listed. */
  ghost function PatchSteps(name: string, listing: seq<Item>, visited: nat): seq<Step>
    requires visited <= |listing|
  {
    Visits(name, EligibleIds(HASH_VERSION, listing[..visited]))
  }

  lemma PatchStepsSnoc(before: seq<Step>, name: string, listing: seq<Item>, i: nat)
    requires i < |listing|
    ensures before + PatchSteps(name, listing, i + 1)
            == before + PatchSteps(name, listing, i) + PatchFor(name, listing[i])
  {
    EligibleIdsSnoc(HASH_VERSION, listing, i);
    var order := EligibleIds(HASH_VERSION, listing[..i]);
    assert Visits(name, order + [listing[i].id]) == Visits(name, order) + [PatchClaim(name, listing[i].id)];
  }

  /** The loop over the listed claims, which edits the listed copies in place. */
  method VisitClaims(cluster: Cluster, name: string, nodeClass: NodeClassSpec, h: Hasher, listing: seq<Item>,
                     ghost pass: Pass)
    returns (err: Option<PassError>, ghost visited: nat)
    requires cluster.Valid() && Passing(cluster.state, name, pass) && nodeClass.Value() == pass.spec
    requires cluster.hashes(HASH_VERSION, pass.spec) == HashOf(h, pass.spec)
    requires forall i :: 0 <= i < |listing| ==> Listed(pass, listing[i])
    modifies cluster`state, cluster`run
    ensures cluster.Valid() && old(cluster.run) <= cluster.run && Passing(cluster.state, name, pass)
    ensures visited <= |listing| && (err.None? ==> visited == |listing|)
    ensures Own(name, cluster.run) == Own(name, old(cluster.run)) + PatchSteps(name, listing, visited)
  {
    ghost var before := Own(name, cluster.run);
    var items := listing;
    var i := 0;
    while i < |items|
      invariant 0 <= i <= |items| == |listing|
      invariant forall j :: i <= j < |items| ==> items[j] == listing[j]
      invariant cluster.Valid() && old(cluster.run) <= cluster.run
      invariant Passing(cluster.state, name, pass) && nodeClass.Value() == pass.spec
      invariant Own(name, cluster.run) == before + PatchSteps(name, listing, i)
    {
      PatchStepsSnoc(before, name, listing, i);
      ghost var own := Own(name, cluster.run);
      var ok, claim := VisitClaim(cluster, name, nodeClass, h, items[i], pass);
      items := items[i := items[i].(claim := claim)];
      if !ok {
        visited := if Own(name, cluster.run) == own then i else i + 1;
        return Some(PatchFailed(items[i].id)), visited;
      }
      i := i + 1;
    }
    err, visited := None, i;
  }

  lemma PassStepsAfterList(before: seq<Step>, name: string, listing: seq<Item>, visited: nat)
    requires visited <= |listing|
    ensures before + [Step.ListClaims(name)] + PatchSteps(name, listing, visited)
            == before + PassSteps(name, listing, visited)
  {
  }

  /**
   * The re-baseline pass. Whatever the rest of the world does meanwhile, the cluster goes through a
   * run of the protocol in which this pass's own steps are one list and then patches, in listing
   * order, of the eligible claims it listed: all of them when it returns without an error, and
   * those among a prefix of the list otherwise.
   */
  method RebaselineClaimHashes(cluster: Cluster, name: string, nodeClass: NodeClassSpec, ghost spec: SpecValue,
                               h: Hasher)
    returns (err: Option<PassError>, ghost pass: Pass, ghost listing: seq<Item>, ghost visited: nat)
    requires cluster.Valid() && nodeClass.Value() == spec && Passing(cluster.state, name, Pass(spec, None))
    requires cluster.hashes(HASH_VERSION, spec) == HashOf(h, spec)
    modifies cluster`state, cluster`run
    ensures cluster.Valid() && old(cluster.run) <= cluster.run
    ensures Passing(cluster.state, name, pass) && pass.spec == spec
    ensures pass.listed.None? ==> err.Some? && Own(name, cluster.run) == Own(name, old(cluster.run))
    ensures pass.listed.Some? ==> Enumerates(listing, pass.listed.value) && visited <= |listing|
    ensures pass.listed.Some? ==>
              Own(name, cluster.run) == Own(name, old(cluster.run)) + PassSteps(name, listing, visited)
    ensures err.None? ==> pass.listed.Some? && visited == |listing|
  {
    var ok, items := cluster.ListClaims(name, spec);
    err, pass, listing, visited := None, cluster.state.passes[name], items, 0;
    if !ok {
      err := Some(ListFailed);
      return;
    }
    ghost var before := Own(name, old(cluster.run));
    err, visited := VisitClaims(cluster, name, nodeClass, h, items, pass);
    PassStepsAfterList(before, name, listing, visited);
  }

  /* ---------------------------------------------------------------------- Reconcile */

  datatype ReconcileResult = Done | Requeue | RequeueAfter(seconds: int) | ReturnError

  function Without(finalizers: seq<string>, f: string): seq<string> {
    if finalizers == [] then []
    else (if finalizers[0] == f then [] else [finalizers[0]]) + Without(finalizers[1..], f)
  }

  predicate ValidSpec(v: SpecValue) {
    v.zone != "" && v.plan != ""
  }

  /** What is on record before a reconcile may write any claim. */
  function Published(h: Hasher, spec: SpecValue, before: Meta): Meta {
    before.(ready := Some(true), statusHash := HashOf(h, spec))
  }

  /** A class whose claims may be written. */
  predicate Serviceable(spec: SpecValue, meta: Meta) {
    !meta.deleting && FINALIZER in meta.finalizers && ValidSpec(spec)
  }

  /** `written` was written with the given result, or the write failed with the other one. */
  ghost predicate Writes(success: ReconcileResult, failure: ReconcileResult, written: Meta,
                         before: Meta, after: Meta, result: ReconcileResult) {
    (result == success && after == written) || (result == failure && (after == before || after == written))
  }

  /** The class's metadata after a reconcile, and the result that goes with it, case by case. */
  ghost predicate MetaOutcome(h: Hasher, spec: SpecValue, before: Meta, after: Meta, result: ReconcileResult) {
    if before.deleting && FINALIZER !in before.finalizers then
      result == Done && after == before
    else if before.deleting then
      Writes(Done, ReturnError, before.(finalizers := Without(before.finalizers, FINALIZER)), before, after, result)
    else if FINALIZER !in before.finalizers then
      Writes(RequeueAfter(60), ReturnError, before.(finalizers := before.finalizers + [FINALIZER]), before, after,
             result)
    else if !ValidSpec(spec) then
      Writes(RequeueAfter(30), Requeue, before.(ready := Some(false)), before, after, result)
    else
      || Writes(RequeueAfter(300), ReturnError, Published(h, spec, before), before, after, result)
      || (result == Requeue && after == before)
  }

  /**
   * What a result tells about the class as it is left. Done: it is being deleted and nobody waits for
   * this controller. A minute: the finalizer has just been added. Half a minute: it is on record as
   * not ready, for want of a zone or a plan. Five minutes: it is on record as ready, with the digest
   * of the spec that was read. Nothing else about it has changed.
   */
  lemma ResultTells(h: Hasher, spec: SpecValue, before: Meta, after: Meta, result: ReconcileResult)
    requires MetaOutcome(h, spec, before, after, result)
    ensures after.deleting == before.deleting
    ensures result == Done ==> after.deleting && FINALIZER !in after.finalizers
    ensures result == RequeueAfter(60) ==>
              !after.deleting && after == before.(finalizers := before.finalizers + [FINALIZER])
    ensures result == RequeueAfter(30) ==>
              && !after.deleting && FINALIZER in after.finalizers && (spec.zone == "" || spec.plan == "")
              && after == before.(ready := Some(false))
    ensures result == RequeueAfter(300) ==>
              && !after.deleting && FINALIZER in after.finalizers && spec.zone != "" && spec.plan != ""
              && after == before.(ready := Some(true), statusHash := HashOf(h, spec))
    ensures before.deleting ==> result in {Done, ReturnError}
    ensures !before.deleting && FINALIZER !in before.finalizers ==> result in {RequeueAfter(60), ReturnError}
    ensures !before.deleting && FINALIZER in before.finalizers && (spec.zone == "" || spec.plan == "") ==>
              result in {RequeueAfter(30), Requeue}
    ensures !before.deleting && FINALIZER in before.finalizers && spec.zone != "" && spec.plan != "" ==>
              result in {RequeueAfter(300), ReturnError, Requeue}
  {
    WithoutExact(before.finalizers, FINALIZER);
  }

  /** slices.DeleteFunc on the finalizer list. */
  method DeleteFinalizer(finalizers: seq<string>) returns (kept: seq<string>)
    ensures kept == Without(finalizers, FINALIZER)
  {
    kept := [];
    var i := 0;
    while i < |finalizers|
      invariant 0 <= i <= |finalizers|
      invariant kept + Without(finalizers[i..], FINALIZER) == Without(finalizers, FINALIZER)
    {
      assert finalizers[i..][1..] == finalizers[i + 1..];
      if finalizers[i] != FINALIZER {
        kept := kept + [finalizers[i]];
      }
      i := i + 1;
    }
  }

  /** The other finalizers stay in their order. */
  lemma {:induction false} WithoutAppend(a: seq<string>, b: seq<string>, f: string)
    ensures Without(a + b, f) == Without(a, f) + Without(b, f)
  {
    if a == [] {
      assert [] + b == b;
    } else {
      WithoutAppend(a[1..], b, f);
      assert (a + b)[1..] == a[1..] + b && (a + b)[0] == a[0];
    }
  }

  /** Taking the finalizer away takes away nothing else, and never fails to. */
  lemma {:induction false} WithoutExact(finalizers: seq<string>, f: string)
    ensures f !in Without(finalizers, f)
    ensures multiset(Without(finalizers, f)) == multiset(finalizers)[f := 0]
  {
    if finalizers != [] {
      WithoutExact(finalizers[1..], f);
      assert finalizers == [finalizers[0]] + finalizers[1..];
    }
  }

  /** The status update of a valid class. A conflict is retried, any other failure is an error. */
  method Publish(cluster: Cluster, name: string, nodeClass: NodeClassSpec, ghost spec: SpecValue, stored: Meta,
                 h: Hasher)
    returns (early: Option<ReconcileResult>)
    requires stored == MetaOf(cluster.meta, name) && nodeClass.Value() == spec
    modifies cluster`meta
    ensures nodeClass.Value() == spec
    ensures cluster.meta == old(cluster.meta) || cluster.meta == old(cluster.meta)[name := Published(h, spec, stored)]
    ensures early.None? ==> MetaOf(cluster.meta, name) == Published(h, spec, stored)
    ensures early.Some? ==> early.value == ReturnError || (early.value == Requeue && cluster.meta == old(cluster.meta))
  {
    var digest := nodeClass.Hash(h);
    var updated := stored.(ready := Some(true), statusHash := digest);
    if updated != stored {
      var ok, conflict := cluster.WriteMeta(name, updated);
      if !ok {
        return Some(if conflict then Requeue else ReturnError);
      }
    }
    early := None;
  }

  /**
   * Everything Reconcile does before the re-baseline pass: deletion, finalizer, validation, status.
   * With no early result, the class is on record as ready with the digest of its spec.
   */
  method Prepare(cluster: Cluster, name: string, nodeClass: NodeClassSpec, ghost spec: SpecValue, stored: Meta,
                 h: Hasher)
    returns (early: Option<ReconcileResult>)
    requires stored == MetaOf(cluster.meta, name) && nodeClass.Value() == spec
    modifies cluster`meta
    ensures nodeClass.Value() == spec
    ensures cluster.meta == old(cluster.meta) || cluster.meta == old(cluster.meta)[name := MetaOf(cluster.meta, name)]
    ensures early.Some? ==> MetaOutcome(h, spec, stored, MetaOf(cluster.meta, name), early.value)
    ensures early != Some(RequeueAfter(300))
    ensures early.None? ==> Serviceable(spec, stored) && MetaOf(cluster.meta, name) == Published(h, spec, stored)
  {
    var ok, conflict;
    if stored.deleting {
      if FINALIZER !in stored.finalizers {
        return Some(Done);
      }
      var kept := DeleteFinalizer(stored.finalizers);
      ok, conflict := cluster.WriteMeta(name, stored.(finalizers := kept));
      return Some(if ok then Done else ReturnError);
    }
    if FINALIZER !in stored.finalizers {
      ok, conflict := cluster.WriteMeta(name, stored.(finalizers := stored.finalizers + [FINALIZER]));
      return Some(if ok then RequeueAfter(60) else ReturnError);
    }
    if nodeClass.zone == "" || nodeClass.plan == "" {
      ok, conflict := cluster.WriteMeta(name, stored.(ready := Some(false)));
      return Some(if ok then RequeueAfter(30) else Requeue);
    }
    early := Publish(cluster, name, nodeClass, spec, stored, h);
  }

  /**
   * The pass in progress read `spec` and listed the claims in `listing`; its own steps were the list
   * and the patches of the eligible ones among the first `visited`.
   */
  ghost predicate InPass(s: State, name: string, spec: SpecValue, own: seq<Step>, listing: seq<Item>, visited: nat) {
    && name in s.passes && s.passes[name].spec == spec
    && s.passes[name].listed.Some? && Enumerates(listing, s.passes[name].listed.value)
    && visited <= |listing| && own == PassSteps(name, listing, visited)
  }

  /**
   * What a reconcile with these own steps did to claims: nothing, or a pass that is complete if the
   * result says so. `s` is the state just before it returned.
   */
  ghost predicate PassOutcome(s: State, name: string, spec: SpecValue, own: seq<Step>, result: ReconcileResult) {
    || (result != RequeueAfter(300) && own == [BeginPass(name), EndPass(name)])
    || exists inner, listing, visited: nat ::
         && own == [BeginPass(name)] + inner + [EndPass(name)]
         && (result == RequeueAfter(300) ==> visited == |listing|)
         && InPass(s, name, spec, inner, listing, visited)
  }

  lemma ReconcilePass(s: State, name: string, spec: SpecValue, earlier: seq<Step>, inner: seq<Step>,
                      listing: seq<Item>, visited: nat, result: ReconcileResult)
    requires || (result != RequeueAfter(300) && inner == [])
             || ((result == RequeueAfter(300) ==> visited == |listing|)
                 && InPass(s, name, spec, inner, listing, visited))
    ensures var own := [BeginPass(name)] + inner + [EndPass(name)];
            PassOutcome(s, name, spec, own, result)
            && earlier + own == earlier + [BeginPass(name)] + inner + [EndPass(name)]
  {
    if inner == [] {
      assert [BeginPass(name)] + inner + [EndPass(name)] == [BeginPass(name), EndPass(name)];
    }
  }

  /**
   * One reconcile of one class. The metadata is left as the result says. Claims are only written for
   * a class that is not being deleted, carries the finalizer and has a valid spec, and only after the
   * digest they are stamped with has been published in its status; with the long requeue, every
   * eligible listed claim has been patched. Other classes are untouched, and the whole is a run of
   * the drift protocol.
   */
  method Reconcile(cluster: Cluster, name: string, h: Hasher)
    returns (result: ReconcileResult, ghost own: seq<Step>, ghost read: Option<SpecValue>)
    requires cluster.Valid() && cluster.state.running == HASH_VERSION && name !in cluster.state.passes
    requires forall v :: cluster.hashes(HASH_VERSION, v) == HashOf(h, v)
    modifies cluster`state, cluster`run, cluster`meta
    ensures cluster.Valid() && old(cluster.run) <= cluster.run
    ensures Own(name, cluster.run) == Own(name, old(cluster.run)) + own
    ensures cluster.state.running == HASH_VERSION && name !in cluster.state.passes
    ensures cluster.meta == old(cluster.meta) || cluster.meta == old(cluster.meta)[name := MetaOf(cluster.meta, name)]
    ensures read.None? ==> (result == Done || result == ReturnError) && cluster.meta == old(cluster.meta) && own == []
    ensures read.None? && result == Done ==> name !in cluster.state.live
    ensures read.Some? ==>
              var before, after := MetaOf(old(cluster.meta), name), MetaOf(cluster.meta, name);
              && MetaOutcome(h, read.value, before, after, result)
              && (|| own == [BeginPass(name), EndPass(name)]
                  || (Serviceable(read.value, before) && after == Published(h, read.value, before)))
    ensures read.Some? ==>
              && cluster.run != [] && cluster.run[|cluster.run| - 1] == EndPass(name)
              && PassOutcome(Exec(cluster.hashes, cluster.start, cluster.run[..|cluster.run| - 1]),
                             name, read.value, own, result)
  {
    var ok, found := cluster.GetNodeClass(name);
    if !ok || found.None? {
      return if ok then Done else ReturnError, [], None;
    }
    read := found;
    ghost var inner, listing, visited;
    result, inner, listing, visited := ReconcileFound(cluster, name, found.value, MetaOf(cluster.meta, name), h);
    own := [BeginPass(name)] + inner + [EndPass(name)];
    ReconcilePass(cluster.state, name, found.value, Own(name, old(cluster.run)), inner, listing, visited, result);
    ghost var before, left := cluster.run, cluster.state;
    cluster.Return(name);
    assert cluster.run[..|cluster.run| - 1] == before && left == Exec(cluster.hashes, cluster.start, before);
  }

  /** What Reconcile does between reading the class and returning. */
  method ReconcileFound(cluster: Cluster, name: string, spec: SpecValue, stored: Meta, h: Hasher)
    returns (result: ReconcileResult, ghost inner: seq<Step>, ghost listing: seq<Item>, ghost visited: nat)
    requires cluster.Valid() && stored == MetaOf(cluster.meta, name) && Passing(cluster.state, name, Pass(spec, None))
    requires forall v :: cluster.hashes(HASH_VERSION, v) == HashOf(h, v)
    modifies cluster`state, cluster`run, cluster`meta
    ensures cluster.Valid() && old(cluster.run) <= cluster.run && cluster.state.running == HASH_VERSION
    ensures Own(name, cluster.run) == Own(name, old(cluster.run)) + inner
    ensures cluster.meta == old(cluster.meta) || cluster.meta == old(cluster.meta)[name := MetaOf(cluster.meta, name)]
    ensures MetaOutcome(h, spec, stored, MetaOf(cluster.meta, name), result)
    ensures || (result != RequeueAfter(300) && inner == [])
            || (&& Serviceable(spec, stored) && MetaOf(cluster.meta, name) == Published(h, spec, stored)
                && (result == RequeueAfter(300) ==> visited == |listing|)
                && InPass(cluster.state, name, spec, inner, listing, visited))
  {
    var nodeClass := Decode(spec);
    var early := Prepare(cluster, name, nodeClass, spec, stored, h);
    if early.Some? {
      return early.value, [], [], 0;
    }
    ghost var pass;
    var err;
    err, pass, listing, visited := RebaselineClaimHashes(cluster, name, nodeClass, spec, h);
    inner := if pass.listed.None? then [] else PassSteps(name, listing, visited);
    result := if err.Some? then ReturnError else RequeueAfter(300);
  }
}
