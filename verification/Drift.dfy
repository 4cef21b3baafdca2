/**
 * Drift detection on values: what a claim carries, how it is stamped, when the node class
 * controller re-stamps it, and when it counts as drifted.
 */
module Drift {
  import opened Prelude
  import opened NodeClassSpecs

  const HASH_KEY := "karpenter.k8s.upcloud/nodeclass-hash"
  const VERSION_KEY := "karpenter.k8s.upcloud/nodeclass-hash-version"

  /** The version of Hash in this repository. */
  const HASH_VERSION := "v2"

  /** One hash function per version of the operator that ever runs. */
  type Hashes = (string, SpecValue) -> string

  /** A NodeClaim; `drifted` says that its Drifted condition is True. */
  datatype Claim = Claim(
    classRef: Option<string>,
    annotations: map<string, string>,
    providerID: string,
    drifted: bool)

  function Stamp(annotations: map<string, string>, digest: string, version: string): map<string, string> {
    annotations[HASH_KEY := digest][VERSION_KEY := version]
  }

  /** The claims a re-baseline pass writes: the three `continue` statements of its loop, negated. */
  predicate Eligible(running: string, c: Claim) {
    && (HASH_KEY in c.annotations || c.providerID != "")
    && !(HASH_KEY in c.annotations && Lookup(c.annotations, VERSION_KEY) == running)
    && !c.drifted
  }

  function Rebaseline(hashes: Hashes, running: string, spec: SpecValue, c: Claim): Claim {
    if Eligible(running, c)
    then c.(annotations := Stamp(c.annotations, hashes(running, spec), running))
    else c
  }

  /**
   * A JSON merge patch of annotations: the difference between the copy that was read (`from`) and
   * the edited copy (`to`), applied to whatever the object holds by then.
   */
  function MergePatch(target: map<string, string>, from: map<string, string>, to: map<string, string>)
    : map<string, string>
  {
    map k | k in target.Keys + to.Keys && (Sets(from, to, k) || (k in target && !Removes(from, to, k))) ::
      if Sets(from, to, k) then to[k] else target[k]
  }

  predicate Sets(from: map<string, string>, to: map<string, string>, k: string) {
    k in to && !(k in from && from[k] == to[k])
  }

  predicate Removes(from: map<string, string>, to: map<string, string>, k: string) {
    k in from && k !in to
  }

  /** Against the copy it was computed from, a merge patch produces exactly the edited copy. */
  lemma MergePatchOnFreshCopy(from: map<string, string>, to: map<string, string>)
    ensures MergePatch(from, from, to) == to
  {
    assert MergePatch(from, from, to).Keys == to.Keys;
  }

  /* --------------------------------------------------------------------- verdicts */

  /** What looking up a claim's node class can yield. */
  datatype Resolved = Found(spec: SpecValue) | NotFound | Failed

  datatype Verdict = NotDrifted | NodeClassDrifted | Error

  function Resolve(live: map<string, SpecValue>, c: Claim): Resolved {
    if c.classRef.Some? && c.classRef.value in live then Found(live[c.classRef.value]) else NotFound
  }

  /** IsDrifted, branch by branch. */
  function IsDrifted(hashes: Hashes, running: string, nodeClass: Resolved, c: Claim): Verdict {
    if nodeClass.NotFound? then NotDrifted
    else if nodeClass.Failed? then Error
    else
      var stored := Lookup(c.annotations, HASH_KEY);
      if stored == "" then NotDrifted
      else if Lookup(c.annotations, VERSION_KEY) != running then NotDrifted
      else if stored != hashes(running, nodeClass.spec) then NodeClassDrifted
      else NotDrifted
  }

  /**
   * The verdict is an error exactly when the class could not be looked up, and drift exactly when it
   * was found and the claim carries a stamp of the running version that is not the spec's digest.
   */
  lemma VerdictExactly(hashes: Hashes, running: string, nodeClass: Resolved, c: Claim)
    requires running != ""
    ensures IsDrifted(hashes, running, nodeClass, c) == Error <==> nodeClass == Failed
    ensures IsDrifted(hashes, running, nodeClass, c) == NodeClassDrifted
       <==> && nodeClass.Found? && HASH_KEY in c.annotations && c.annotations[HASH_KEY] != ""
            && VERSION_KEY in c.annotations && c.annotations[VERSION_KEY] == running
            && c.annotations[HASH_KEY] != hashes(running, nodeClass.spec)
  {
  }

  /**
   * Re-baselining a claim from a copy that is still current never changes its verdict: against the
   * spec the pass read, the claim (written, skipped, drifted or not) is judged the same before and
   * after. A patch from a copy that fell behind can change it; see RebaselinePass.StampSurvivesExactly.
   */
  lemma RebaselinePreservesVerdict(hashes: Hashes, running: string, spec: SpecValue, c: Claim)
    ensures IsDrifted(hashes, running, Found(spec), Rebaseline(hashes, running, spec, c))
         == IsDrifted(hashes, running, Found(spec), c)
  {
  }

  /** From then on a re-stamped claim is drifted exactly when the live spec's digest is another one. */
  lemma RestampedClaimDetectsEveryEdit(hashes: Hashes, running: string, spec: SpecValue, c: Claim, edited: SpecValue)
    requires Eligible(running, c) && hashes(running, spec) != ""
    ensures IsDrifted(hashes, running, Found(edited), Rebaseline(hashes, running, spec, c)) == NodeClassDrifted
       <==> hashes(running, edited) != hashes(running, spec)
  {
  }

  /** The hash function of a version sees specs only through their normal form. */
  ghost predicate SeesNormalForm(hashes: Hashes, version: string) {
    forall a, b {:trigger hashes(version, a), hashes(version, b)} ::
      Normal(a) == Normal(b) ==> hashes(version, a) == hashes(version, b)
  }

  /** The Hash of this repository is such a function. */
  lemma CurrentHashSeesNormalForm(h: Hasher, hashes: Hashes)
    requires OrderFree(h)
    requires forall v :: hashes(HASH_VERSION, v) == HashOf(h, v)
    ensures SeesNormalForm(hashes, HASH_VERSION)
  {
    forall a, b | Normal(a) == Normal(b)
      ensures hashes(HASH_VERSION, a) == hashes(HASH_VERSION, b)
    {
      HashRespectsNormalForm(h, a, b);
    }
  }
}
