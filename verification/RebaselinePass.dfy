/**
 * What one re-baseline pass does when nothing else runs: a function of the claims it found, the
 * laws of that function, and the proof that the protocol's steps compute it.
 */
module RebaselinePass {
  import opened Prelude
  import opened NodeClassSpecs
  import opened Drift
  import opened DriftRuns

  /** The claims after a pass has visited those in `done`. */
  function RebaselineOn(hashes: Hashes, running: string, spec: SpecValue, claims: map<string, Claim>,
                        done: set<string>): map<string, Claim> {
    map id | id in claims :: if id in done then Rebaseline(hashes, running, spec, claims[id]) else claims[id]
  }

  function StaleClaims(running: string, claims: map<string, Claim>, name: string): set<string> {
    set id | id in claims && claims[id].classRef == Some(name) && Eligible(running, claims[id])
  }

  function Writes(before: map<string, Claim>, after: map<string, Claim>): set<string> {
    set id | id in before && id in after && before[id] != after[id]
  }

  /**
   * A complete pass: every launched or already hashed claim of the class that is not Drifted ends up
   * with a hash and the running version; Drifted claims, unlaunched claims without a hash, and
   * claims of other classes are as they were; nothing is stale any more.
   */
  lemma CompletePass(hashes: Hashes, running: string, spec: SpecValue, claims: map<string, Claim>, name: string,
                     id: string)
    requires id in claims
    ensures var after := RebaselineOn(hashes, running, spec, claims, ClaimsOf(claims, name).Keys);
            && after.Keys == claims.Keys
            && StaleClaims(running, after, name) == {}
            && (var c, c' := claims[id], after[id];
                && (c.classRef == Some(name) && !c.drifted && (c.providerID != "" || HASH_KEY in c.annotations) ==>
                      && HASH_KEY in c'.annotations && Lookup(c'.annotations, VERSION_KEY) == running
                      && (Lookup(c.annotations, VERSION_KEY) != running ==>
                            c'.annotations[HASH_KEY] == hashes(running, spec)))
                && (c.classRef != Some(name) || c.drifted || (c.providerID == "" && HASH_KEY !in c.annotations) ==>
                      c' == c))
  {
  }

  /** A second pass finds nothing to write, whatever it visits and whatever spec it reads. */
  lemma SecondPassWritesNothing(hashes: Hashes, running: string, spec: SpecValue, later: SpecValue,
                                claims: map<string, Claim>, done: set<string>, again: set<string>)
    requires again <= done
    ensures var after := RebaselineOn(hashes, running, spec, claims, done);
            RebaselineOn(hashes, running, later, after, again) == after
  {
    var after := RebaselineOn(hashes, running, spec, claims, done);
    var third := RebaselineOn(hashes, running, later, after, again);
    forall id | id in after
      ensures third[id] == after[id]
    {
      assert id in again ==> !Eligible(running, after[id]);
    }
  }

  /** An interrupted pass takes exactly the visited claims off the stale set. */
  lemma PassShrinksStale(hashes: Hashes, running: string, spec: SpecValue, claims: map<string, Claim>, name: string,
                         done: set<string>)
    requires done <= ClaimsOf(claims, name).Keys
    ensures var after := RebaselineOn(hashes, running, spec, claims, done);
            && StaleClaims(running, after, name) == StaleClaims(running, claims, name) - done
            && Writes(claims, after) <= StaleClaims(running, claims, name) * done
  {
    var after := RebaselineOn(hashes, running, spec, claims, done);
    forall id | id in claims
      ensures id in StaleClaims(running, after, name) <==> id in StaleClaims(running, claims, name) - done
    {
    }
  }

  /** A pass that read `spec` and got as far as `done`. */
  datatype Attempt = Attempt(spec: SpecValue, done: set<string>)

  function Attempts(hashes: Hashes, running: string, claims: map<string, Claim>, attempts: seq<Attempt>)
    : map<string, Claim>
  {
    if attempts == [] then claims
    else Attempts(hashes, running, RebaselineOn(hashes, running, attempts[0].spec, claims, attempts[0].done),
                  attempts[1..])
  }

  /** The patches issued over all attempts. */
  function Patches(hashes: Hashes, running: string, claims: map<string, Claim>, name: string,
                   attempts: seq<Attempt>): nat {
    if attempts == [] then 0
    else |StaleClaims(running, claims, name) * attempts[0].done|
         + Patches(hashes, running, RebaselineOn(hashes, running, attempts[0].spec, claims, attempts[0].done), name,
                   attempts[1..])
  }

  /**
   * Retries terminate: however often passes fail midway and start over, the patches issued plus the
   * claims still stale is the number that were stale at the start.
   */
  lemma {:induction false} RetriesTerminate(hashes: Hashes, running: string, claims: map<string, Claim>, name: string,
                                            attempts: seq<Attempt>)
    requires forall a :: a in attempts ==> a.done <= ClaimsOf(claims, name).Keys
    ensures Patches(hashes, running, claims, name, attempts)
            + |StaleClaims(running, Attempts(hashes, running, claims, attempts), name)|
         == |StaleClaims(running, claims, name)|
    decreases |attempts|
  {
    if attempts != [] {
      var first := attempts[0];
      var after := RebaselineOn(hashes, running, first.spec, claims, first.done);
      var stale := StaleClaims(running, claims, name);
      assert ClaimsOf(after, name).Keys == ClaimsOf(claims, name).Keys;
      PassShrinksStale(hashes, running, first.spec, claims, name, first.done);
      assert stale == (stale - first.done) + stale * first.done;
      RetriesTerminate(hashes, running, after, name, attempts[1..]);
    }
  }

  /* ----------------------------------------------- the protocol's steps compute the function */

  function Visits(name: string, order: seq<string>): seq<Step> {
    seq(|order|, i requires 0 <= i < |order| => PatchClaim(name, order[i]))
  }

  lemma VisitComputes(hashes: Hashes, s: State, name: string, done: set<string>, id: string)
    requires name in s.passes && s.passes[name].listed == Some(ClaimsOf(s.claims, name))
    requires id in ClaimsOf(s.claims, name) && id !in done
    ensures var spec := s.passes[name].spec;
            Apply(hashes, s.(claims := RebaselineOn(hashes, s.running, spec, s.claims, done)), PatchClaim(name, id))
            == s.(claims := RebaselineOn(hashes, s.running, spec, s.claims, done + {id}))
  {
    var spec := s.passes[name].spec;
    MergePatchOnFreshCopy(s.claims[id].annotations, Stamped(hashes, s.running, spec, s.claims[id]));
    var t := Apply(hashes, s.(claims := RebaselineOn(hashes, s.running, spec, s.claims, done)), PatchClaim(name, id));
    assert t.claims == RebaselineOn(hashes, s.running, spec, s.claims, done + {id});
  }

  lemma {:induction false} VisitsCompute(hashes: Hashes, s: State, name: string, order: seq<string>)
    requires name in s.passes && s.passes[name].listed == Some(ClaimsOf(s.claims, name))
    requires forall i, j :: 0 <= i < j < |order| ==> order[i] != order[j]
    requires forall i :: 0 <= i < |order| ==> order[i] in ClaimsOf(s.claims, name)
    ensures Exec(hashes, s, Visits(name, order))
         == s.(claims := RebaselineOn(hashes, s.running, s.passes[name].spec, s.claims,
                                      set i | 0 <= i < |order| :: order[i]))
    decreases |order|
  {
    if order == [] {
      assert RebaselineOn(hashes, s.running, s.passes[name].spec, s.claims, {}) == s.claims;
    } else {
      var last := |order| - 1;
      var earlier, id := order[..last], order[last];
      var done := set i | 0 <= i < last :: earlier[i];
      assert (set i | 0 <= i < |order| :: order[i]) == done + {id} by {
        assert forall i :: 0 <= i < last ==> earlier[i] == order[i];
      }
      VisitsCompute(hashes, s, name, earlier);
      assert Visits(name, order) == Visits(name, earlier) + [PatchClaim(name, id)];
      ExecSnoc(hashes, s, Visits(name, earlier), PatchClaim(name, id));
      VisitComputes(hashes, s, name, done, id);
    }
  }

  /**
   * Left alone, a pass that begins, lists and visits the claims in any order (all of them, or a
   * prefix when a patch failed) does what RebaselineOn says and nothing else.
   */
  lemma QuietPass(hashes: Hashes, s: State, name: string, order: seq<string>)
    requires name in s.live && name !in s.passes
    requires forall i, j :: 0 <= i < j < |order| ==> order[i] != order[j]
    requires forall i :: 0 <= i < |order| ==> order[i] in ClaimsOf(s.claims, name)
    ensures var begun := Apply(hashes, Apply(hashes, s, BeginPass(name)), ListClaims(name));
            Exec(hashes, begun, Visits(name, order)).claims
            == RebaselineOn(hashes, s.running, s.live[name], s.claims, set i | 0 <= i < |order| :: order[i])
  {
    VisitsCompute(hashes, Apply(hashes, Apply(hashes, s, BeginPass(name)), ListClaims(name)), name, order);
  }

  /* ------------------------------------------------ what becomes of a Drifted claim's hash */

  /** A step that is not aimed at claim `id`, or keeps it Drifted: what Karpenter and users leave it to. */
  predicate LeavesAlone(id: string, step: Step) {
    match step
    case AddClaim(other, _) => other != id
    case RemoveClaim(other) => other != id
    case SetDrifted(other, drifted) => other != id || drifted
    case DropAnnotation(other, _) => other != id
    case FinishCreate(other, _) => other != id
    case _ => true
  }

  /** A pass is running that listed claim `id`. */
  predicate Holds(s: State, name: string, id: string) {
    name in s.passes && s.passes[name].listed.Some? && id in s.passes[name].listed.value
  }

  /** A hashed, outdated, Drifted claim, of which every running pass holds a copy with the same annotations, if any. */
  ghost predicate DriftedAndStale(s: State, id: string) {
    && id in s.claims && s.claims[id].drifted
    && HASH_KEY in s.claims[id].annotations && Lookup(s.claims[id].annotations, VERSION_KEY) != s.running
    && forall name :: Holds(s, name, id) ==> s.passes[name].listed.value[id].annotations == s.claims[id].annotations
  }

  /** One patch: the claim is left as it was exactly when the copy the pass listed was Drifted already. */
  lemma PatchSparesExactly(hashes: Hashes, s: State, name: string, id: string)
    requires DriftedAndStale(s, id) && Holds(s, name, id)
    ensures var t := Apply(hashes, s, PatchClaim(name, id));
            && id in t.claims
            && (t.claims[id] == s.claims[id] <==> s.passes[name].listed.value[id].drifted)
  {
    var copy := s.passes[name].listed.value[id];
    if !copy.drifted {
      assert CanPatch(s, name, id);
      MergePatchOnFreshCopy(copy.annotations, Stamped(hashes, s.running, s.passes[name].spec, copy));
      assert Apply(hashes, s, PatchClaim(name, id)).claims[id].annotations[VERSION_KEY] == s.running;
    }
  }

  /** Every running pass that listed claim `id` saw it Drifted. */
  ghost predicate SeenDrifted(s: State, id: string) {
    forall name :: Holds(s, name, id) ==> s.passes[name].listed.value[id].drifted
  }

  lemma {:induction false} DriftedIsSpared(hashes: Hashes, s: State, id: string, steps: seq<Step>)
    requires id in s.claims && s.claims[id].drifted && SeenDrifted(s, id)
    requires forall i :: 0 <= i < |steps| ==> LeavesAlone(id, steps[i])
    ensures var t := Exec(hashes, s, steps);
            id in t.claims && t.claims[id] == s.claims[id] && SeenDrifted(t, id)
    decreases |steps|
  {
    if steps != [] {
      DriftedIsSpared(hashes, s, id, steps[..|steps| - 1]);
      DriftedIsSparedOnce(hashes, Exec(hashes, s, steps[..|steps| - 1]), id, steps[|steps| - 1]);
    }
  }

  lemma DriftedIsSparedOnce(hashes: Hashes, s: State, id: string, step: Step)
    requires id in s.claims && s.claims[id].drifted && SeenDrifted(s, id) && LeavesAlone(id, step)
    ensures var t := Apply(hashes, s, step);
            id in t.claims && t.claims[id] == s.claims[id] && SeenDrifted(t, id)
  {
    var t := Apply(hashes, s, step);
    forall name | Holds(t, name, id)
      ensures t.passes[name].listed.value[id].drifted
    {
      assert Holds(s, name, id) || t.passes[name].listed.value[id] == s.claims[id];
    }
  }

  /**
   * Genuine drift survives the passes exactly when no running pass listed the claim before it turned
   * Drifted: whatever passes then begin, list, patch, fail or hold, and whatever is edited, created
   * or upgraded meanwhile, the claim keeps its stamp. One earlier listing is enough to lose it.
   */
  lemma DriftSurvivesExactly(hashes: Hashes, s: State, id: string)
    requires DriftedAndStale(s, id)
    ensures SeenDrifted(s, id)
       <==> forall steps :: (forall i :: 0 <= i < |steps| ==> LeavesAlone(id, steps[i])) ==>
              id in Exec(hashes, s, steps).claims && Exec(hashes, s, steps).claims[id] == s.claims[id]
  {
    if SeenDrifted(s, id) {
      forall steps | forall i :: 0 <= i < |steps| ==> LeavesAlone(id, steps[i])
        ensures id in Exec(hashes, s, steps).claims && Exec(hashes, s, steps).claims[id] == s.claims[id]
      {
        DriftedIsSpared(hashes, s, id, steps);
      }
    } else {
      var name :| Holds(s, name, id) && !s.passes[name].listed.value[id].drifted;
      PatchSparesExactly(hashes, s, name, id);
      ExecSnoc(hashes, s, [], PatchClaim(name, id));
      var steps := [PatchClaim(name, id)];
      assert [] + steps == steps && LeavesAlone(id, steps[0]);
      assert Exec(hashes, s, steps).claims[id] != s.claims[id];
    }
  }

  /**
   * The Drifted guard looks at the listed copy: a claim that turns Drifted after the list and before
   * its patch is re-stamped all the same, and is then no longer reported.
   */
  lemma DriftedAfterListingIsRestamped(hashes: Hashes, init: State, name: string, id: string)
    requires Init(init) && name in init.live && id in ClaimsOf(init.claims, name)
    requires Eligible(init.running, init.claims[id])
    ensures var steps := [BeginPass(name), ListClaims(name), SetDrifted(id, true), PatchClaim(name, id)];
            var s := Exec(hashes, init, steps);
            && id in s.claims && s.claims[id].drifted
            && s.claims[id].annotations == Stamped(hashes, init.running, init.live[name], init.claims[id])
            && VerdictOn(hashes, s, s.claims[id]) == NotDrifted
  {
    ExecFour(hashes, init, BeginPass(name), ListClaims(name), SetDrifted(id, true), PatchClaim(name, id));
    MergePatchOnFreshCopy(init.claims[id].annotations, Stamped(hashes, init.running, init.live[name], init.claims[id]));
  }

  /* --------------------------------------------------- what becomes of a current stamp */

  /** Claim `id` carries this digest, stamped by the running version. */
  ghost predicate Carries(s: State, id: string, digest: string) {
    && id in s.claims && HASH_KEY in s.claims[id].annotations
    && s.claims[id].annotations[HASH_KEY] == digest && Lookup(s.claims[id].annotations, VERSION_KEY) == s.running
  }

  /** A step after which the stamp of claim `id` is still up to the passes. */
  predicate LeavesStamp(id: string, step: Step) {
    match step
    case AddClaim(other, _) => other != id
    case RemoveClaim(other) => other != id
    case DropAnnotation(other, _) => other != id
    case FinishCreate(other, _) => other != id
    case Upgrade(_) => false
    case _ => true
  }

  /**
   * A pass that listed the claim as this copy will not overwrite `digest`: it skips the copy, its
   * spec has that digest, or the copy already has the digest the pass would write.
   */
  predicate Harmless(hashes: Hashes, running: string, pass: Pass, copy: Claim, digest: string) {
    || !Eligible(running, copy)
    || hashes(running, pass.spec) == digest
    || (HASH_KEY in copy.annotations && copy.annotations[HASH_KEY] == hashes(running, pass.spec))
  }

  ghost predicate AllHarmless(hashes: Hashes, s: State, id: string, digest: string) {
    forall name :: Holds(s, name, id) ==>
      Harmless(hashes, s.running, s.passes[name], s.passes[name].listed.value[id], digest)
  }

  /** One patch leaves the stamp exactly when its pass is harmless. */
  lemma PatchKeepsStampExactly(hashes: Hashes, s: State, name: string, id: string, digest: string)
    requires Carries(s, id, digest) && Holds(s, name, id)
    ensures Carries(Apply(hashes, s, PatchClaim(name, id)), id, digest)
       <==> Harmless(hashes, s.running, s.passes[name], s.passes[name].listed.value[id], digest)
  {
    var pass := s.passes[name];
    var copy := pass.listed.value[id];
    if Eligible(s.running, copy) {
      var from, to := copy.annotations, Stamped(hashes, s.running, pass.spec, copy);
      var patched := MergePatch(s.claims[id].annotations, from, to);
      assert Apply(hashes, s, PatchClaim(name, id)).claims[id].annotations == patched;
      assert patched[HASH_KEY] == if Sets(from, to, HASH_KEY) then hashes(s.running, pass.spec) else digest;
    }
  }

  lemma StampIsKeptOnce(hashes: Hashes, s: State, id: string, digest: string, step: Step)
    requires Carries(s, id, digest) && AllHarmless(hashes, s, id, digest) && LeavesStamp(id, step)
    ensures Carries(Apply(hashes, s, step), id, digest) && AllHarmless(hashes, Apply(hashes, s, step), id, digest)
  {
    var t := Apply(hashes, s, step);
    if step.PatchClaim? && step.id == id && Holds(s, step.name, id) {
      PatchKeepsStampExactly(hashes, s, step.name, id, digest);
    }
    forall name | Holds(t, name, id)
      ensures Harmless(hashes, t.running, t.passes[name], t.passes[name].listed.value[id], digest)
    {
      assert Holds(s, name, id) || t.passes[name].listed.value[id] == s.claims[id];
    }
  }

  lemma {:induction false} StampIsKept(hashes: Hashes, s: State, id: string, digest: string, steps: seq<Step>)
    requires Carries(s, id, digest) && AllHarmless(hashes, s, id, digest)
    requires forall i :: 0 <= i < |steps| ==> LeavesStamp(id, steps[i])
    ensures Carries(Exec(hashes, s, steps), id, digest) && AllHarmless(hashes, Exec(hashes, s, steps), id, digest)
    decreases |steps|
  {
    if steps != [] {
      StampIsKept(hashes, s, id, digest, steps[..|steps| - 1]);
      StampIsKeptOnce(hashes, Exec(hashes, s, steps[..|steps| - 1]), id, digest, steps[|steps| - 1]);
    }
  }

  /**
   * A current stamp survives every continuation (under one version, with the claim's own annotations
   * left to the passes) exactly when all passes that hold a copy of the claim are harmless. Passes
   * that list it later always are. So what Create stamps is lost only to a pass that listed the claim
   * before, found it eligible, and read a spec with another digest.
   */
  lemma StampSurvivesExactly(hashes: Hashes, s: State, id: string, digest: string)
    requires Carries(s, id, digest)
    ensures AllHarmless(hashes, s, id, digest)
       <==> forall steps :: (forall i :: 0 <= i < |steps| ==> LeavesStamp(id, steps[i])) ==>
              Carries(Exec(hashes, s, steps), id, digest)
  {
    if AllHarmless(hashes, s, id, digest) {
      forall steps | forall i :: 0 <= i < |steps| ==> LeavesStamp(id, steps[i])
        ensures Carries(Exec(hashes, s, steps), id, digest)
      {
        StampIsKept(hashes, s, id, digest, steps);
      }
    } else {
      var name :| Holds(s, name, id)
                  && !Harmless(hashes, s.running, s.passes[name], s.passes[name].listed.value[id], digest);
      PatchKeepsStampExactly(hashes, s, name, id, digest);
      ExecSnoc(hashes, s, [], PatchClaim(name, id));
      var steps := [PatchClaim(name, id)];
      assert [] + steps == steps && LeavesStamp(id, steps[0]);
      assert !Carries(Exec(hashes, s, steps), id, digest);
    }
  }

  /** A class is edited and a claim provisioned from the edited spec while a pass holds an older spec and copy. */
  function Provisioned(name: string, id: string, newer: SpecValue, providerID: string): seq<Step> {
    [BeginPass(name), ListClaims(name), EditSpec(name, newer), BeginCreate(id)] + [FinishCreate(id, providerID)]
  }

  /** The pass holds spec and copy of `old`; the claim was provisioned from `newer`. */
  ghost predicate Behind(hashes: Hashes, old_: State, s: State, name: string, id: string, newer: SpecValue) {
    && s.running == old_.running && name in old_.live && name in s.live && s.live[name] == newer
    && id in old_.claims && Holds(s, name, id) && s.passes[name].spec == old_.live[name]
    && s.passes[name].listed.value[id] == old_.claims[id]
    && id in s.claims && s.claims[id].classRef == Some(name)
    && s.claims[id].annotations == Stamped(hashes, s.running, newer, old_.claims[id])
  }

  lemma ProvisionedIsBehind(hashes: Hashes, init: State, name: string, id: string, newer: SpecValue, providerID: string)
    requires Init(init) && name in init.live && id in init.claims && init.claims[id].classRef == Some(name)
    ensures Behind(hashes, init, Exec(hashes, init, Provisioned(name, id, newer, providerID)), name, id, newer)
  {
    var four := [BeginPass(name), ListClaims(name), EditSpec(name, newer), BeginCreate(id)];
    ExecFour(hashes, init, BeginPass(name), ListClaims(name), EditSpec(name, newer), BeginCreate(id));
    var listed := Apply(hashes, Apply(hashes, init, BeginPass(name)), ListClaims(name));
    CreateBegins(hashes, init, listed, name, id, newer);
    ExecSnoc(hashes, init, four, FinishCreate(id, providerID));
  }

  lemma CreateBegins(hashes: Hashes, init: State, listed: State, name: string, id: string, newer: SpecValue)
    requires name in init.live && id in init.claims && init.claims[id].classRef == Some(name)
    requires name !in init.passes && listed == Apply(hashes, Apply(hashes, init, BeginPass(name)), ListClaims(name))
    ensures var s := Apply(hashes, Apply(hashes, listed, EditSpec(name, newer)), BeginCreate(id));
            && s.running == init.running && name in s.live && s.live[name] == newer
            && s.claims == init.claims && id in s.creates && s.creates[id] == newer
            && Holds(s, name, id) && s.passes[name].spec == init.live[name]
            && s.passes[name].listed.value[id] == init.claims[id]
  {
  }

  /** An unlaunched, outdated claim that nevertheless has a hash, another one than its class's. */
  ghost predicate HashedUnlaunched(hashes: Hashes, s: State, name: string, id: string) {
    && name in s.live && id in s.claims && s.claims[id].classRef == Some(name)
    && s.claims[id].providerID == "" && !s.claims[id].drifted
    && HASH_KEY in s.claims[id].annotations && Lookup(s.claims[id].annotations, VERSION_KEY) != s.running
    && s.claims[id].annotations[HASH_KEY] != hashes(s.running, s.live[name])
  }

  lemma PatchFromBehind(hashes: Hashes, old_: State, s: State, name: string, id: string, newer: SpecValue)
    requires HashedUnlaunched(hashes, old_, name, id) && Behind(hashes, old_, s, name, id, newer)
    ensures Carries(Apply(hashes, s, PatchClaim(name, id)), id, hashes(s.running, old_.live[name]))
    ensures Apply(hashes, s, PatchClaim(name, id)).claims[id].classRef == Some(name)
  {
    assert CanPatch(s, name, id);
  }

  /**
   * The race in question. Only unlaunched claims without a hash are skipped, so one that has a hash
   * already is patched by a pass that listed it before it was provisioned: the stamp of the spec it
   * was provisioned from is overwritten with the digest of an older spec, and a node that is up to
   * date is reported as drifted.
   */
  lemma StalePassOverwritesCreate(hashes: Hashes, init: State, name: string, id: string, newer: SpecValue,
                                  providerID: string)
    requires Init(init) && HashedUnlaunched(hashes, init, name, id)
    requires hashes(init.running, init.live[name]) != hashes(init.running, newer)
    requires hashes(init.running, init.live[name]) != ""
    ensures var provisioned := Provisioned(name, id, newer, providerID);
            var s, t := Exec(hashes, init, provisioned), Exec(hashes, init, provisioned + [PatchClaim(name, id)]);
            && Carries(s, id, hashes(init.running, newer)) && VerdictOn(hashes, s, s.claims[id]) == NotDrifted
            && Carries(t, id, hashes(init.running, init.live[name]))
            && VerdictOn(hashes, t, t.claims[id]) == NodeClassDrifted
  {
    var provisioned := Provisioned(name, id, newer, providerID);
    ProvisionedIsBehind(hashes, init, name, id, newer, providerID);
    PatchFromBehind(hashes, init, Exec(hashes, init, provisioned), name, id, newer);
    ExecSnoc(hashes, init, provisioned, PatchClaim(name, id));
  }

  lemma ExecTwo(hashes: Hashes, s: State, a: Step, b: Step)
    ensures Exec(hashes, s, [a, b]) == Apply(hashes, Apply(hashes, s, a), b)
  {
    var s1 := Apply(hashes, s, a);
    ExecSnoc(hashes, s, [], a);
    assert [] + [a] == [a];
    assert Exec(hashes, s, [a]) == s1;
    ExecSnoc(hashes, s, [a], b);
    assert [a] + [b] == [a, b];
  }

  lemma ExecFour(hashes: Hashes, s: State, a: Step, b: Step, c: Step, d: Step)
    ensures Exec(hashes, s, [a, b, c, d])
         == Apply(hashes, Apply(hashes, Apply(hashes, Apply(hashes, s, a), b), c), d)
  {
    ExecTwo(hashes, s, a, b);
    ThenTwo(hashes, s, [a, b], c, d);
    assert [a, b] + [c, d] == [a, b, c, d];
  }

  lemma ThenTwo(hashes: Hashes, s: State, steps: seq<Step>, c: Step, d: Step)
    ensures Exec(hashes, s, steps + [c, d]) == Apply(hashes, Apply(hashes, Exec(hashes, s, steps), c), d)
  {
    ExecSnoc(hashes, s, steps, c);
    ExecSnoc(hashes, s, steps + [c], d);
    OneByOne(steps, c, d);
  }

  lemma OneByOne(steps: seq<Step>, c: Step, d: Step)
    ensures steps + [c] + [d] == steps + [c, d]
  {
  }
}
