/**
 * The drift protocol as a state machine. Specs are edited, claims come and go, provisioning stamps
 * claims, re-baseline passes re-stamp them one patch at a time from copies they listed earlier, and
 * the operator is replaced by one with another hash version at any moment. A run is any sequence of
 * steps; a step whose guard fails does nothing.
 */
module DriftRuns {
  import opened Prelude
  import opened NodeClassSpecs
  import opened Drift

  /** A running re-baseline pass: the spec it read, then the claim copies it listed. */
  datatype Pass = Pass(spec: SpecValue, listed: Option<map<string, Claim>>)

  /**
   * `history` holds every (class, spec) that was ever live, `ran` every version that ever ran, and
   * `seen` every claim name ever used (the API server never reuses the identity of an object).
   */
  datatype State = State(
    running: string,
    live: map<string, SpecValue>,
    claims: map<string, Claim>,
    passes: map<string, Pass>,
    creates: map<string, SpecValue>,
    history: set<(string, SpecValue)>,
    ran: set<string>,
    seen: set<string>)

  datatype Step =
    | EditSpec(name: string, spec: SpecValue)
    | DeleteClass(name: string)
    | AddClaim(id: string, claim: Claim)
    | RemoveClaim(id: string)
    | SetDrifted(id: string, drifted: bool)
    | DropAnnotation(id: string, key: string)
    | BeginCreate(id: string)
    | FinishCreate(id: string, providerID: string)
    | BeginPass(name: string)
    | ListClaims(name: string)
    | PatchClaim(name: string, id: string)
    | EndPass(name: string)
    | Upgrade(version: string)

  /** The claims selected by nodeclaimutils.ForNodeClass. */
  function ClaimsOf(claims: map<string, Claim>, name: string): map<string, Claim> {
    map id | id in claims && claims[id].classRef == Some(name) :: claims[id]
  }

  /** The annotations a pass wants on the claim whose listed copy is `c`. */
  function Stamped(hashes: Hashes, running: string, spec: SpecValue, c: Claim): map<string, string> {
    Stamp(c.annotations, hashes(running, spec), running)
  }

  /** The patch of one eligible claim, computed from the copy the pass listed. */
  function PatchFrom(hashes: Hashes, s: State, spec: SpecValue, copy: Claim, id: string): State
    requires id in s.claims
  {
    var c := s.claims[id];
    var patched := MergePatch(c.annotations, copy.annotations, Stamped(hashes, s.running, spec, copy));
    s.(claims := s.claims[id := c.(annotations := patched)])
  }

  predicate CanPatch(s: State, name: string, id: string) {
    && name in s.passes && s.passes[name].listed.Some? && id in s.passes[name].listed.value
    && Eligible(s.running, s.passes[name].listed.value[id])
    && id in s.claims
  }

  function Apply(hashes: Hashes, s: State, step: Step): State {
    match step
    case EditSpec(name, spec) =>
      s.(live := s.live[name := spec], history := s.history + {(name, spec)})
    case DeleteClass(name) =>
      s.(live := s.live - {name})
    case AddClaim(id, claim) =>
      if id in s.seen || HASH_KEY in claim.annotations || VERSION_KEY in claim.annotations then s
      else s.(claims := s.claims[id := claim], seen := s.seen + {id})
    case RemoveClaim(id) =>
      s.(claims := s.claims - {id}, creates := s.creates - {id})
    case SetDrifted(id, drifted) =>
      if id !in s.claims then s else s.(claims := s.claims[id := s.claims[id].(drifted := drifted)])
    case DropAnnotation(id, key) =>
      if id !in s.claims then s
      else s.(claims := s.claims[id := s.claims[id].(annotations := s.claims[id].annotations - {key})])
    case BeginCreate(id) =>
      if id in s.claims && Resolve(s.live, s.claims[id]).Found?
      then s.(creates := s.creates[id := Resolve(s.live, s.claims[id]).spec])
      else s
    case FinishCreate(id, providerID) =>
      if id !in s.claims || id !in s.creates then s
      else
        var c := s.claims[id];
        s.(claims := s.claims[id := c.(providerID := providerID,
                                       annotations := Stamped(hashes, s.running, s.creates[id], c))],
           creates := s.creates - {id})
    case BeginPass(name) =>
      if name in s.live && name !in s.passes
      then s.(passes := s.passes[name := Pass(s.live[name], None)])
      else s
    case ListClaims(name) =>
      if name in s.passes && s.passes[name].listed.None?
      then s.(passes := s.passes[name := s.passes[name].(listed := Some(ClaimsOf(s.claims, name)))])
      else s
    case PatchClaim(name, id) =>
      if CanPatch(s, name, id)
      then PatchFrom(hashes, s, s.passes[name].spec, s.passes[name].listed.value[id], id)
      else s
    case EndPass(name) =>
      s.(passes := s.passes - {name})
    case Upgrade(version) =>
      if version == "" then s
      else s.(running := version, ran := s.ran + {version}, passes := map[], creates := map[])
  }

  function Exec(hashes: Hashes, s: State, steps: seq<Step>): State
    decreases |steps|
  {
    if steps == [] then s
    else Apply(hashes, Exec(hashes, s, steps[..|steps| - 1]), steps[|steps| - 1])
  }

  lemma ExecSnoc(hashes: Hashes, s: State, steps: seq<Step>, last: Step)
    ensures Exec(hashes, s, steps + [last]) == Apply(hashes, Exec(hashes, s, steps), last)
  {
    assert (steps + [last])[..|steps|] == steps;
  }

  /** Where runs start: nothing in progress, and only unversioned (legacy or missing) stamps. */
  ghost predicate Init(s: State) {
    && s.running != "" && s.ran == {s.running}
    && s.passes == map[] && s.creates == map[]
    && s.history == (set name | name in s.live :: (name, s.live[name]))
    && s.seen == s.claims.Keys
    && forall id :: id in s.claims ==> VERSION_KEY !in s.claims[id].annotations
  }

  /* ------------------------------------------------------------------- the invariant */

  /** `digest` is what version `version` computes for some spec class `name` really had. */
  ghost predicate Baselined(hashes: Hashes, history: set<(string, SpecValue)>, version: string, name: string,
                            digest: string) {
    exists spec :: (name, spec) in history && digest == hashes(version, spec)
  }

  /** A versioned stamp is genuine. */
  ghost predicate Genuine(hashes: Hashes, s: State, c: Claim) {
    VERSION_KEY in c.annotations ==>
      && c.annotations[VERSION_KEY] in s.ran
      && (HASH_KEY in c.annotations ==>
            c.classRef.Some?
            && Baselined(hashes, s.history, c.annotations[VERSION_KEY], c.classRef.value, c.annotations[HASH_KEY]))
  }

  /** How far a listed copy can have fallen behind its claim without a patch from it doing harm. */
  ghost predicate Follows(hashes: Hashes, s: State, name: string, copy: Claim, c: Claim) {
    && c.classRef == Some(name)
    && (HASH_KEY in c.annotations ==>
          || (HASH_KEY in copy.annotations && copy.annotations[HASH_KEY] == c.annotations[HASH_KEY])
          || Baselined(hashes, s.history, s.running, name, c.annotations[HASH_KEY]))
    && (VERSION_KEY in c.annotations && Lookup(copy.annotations, VERSION_KEY) == s.running ==>
          c.annotations[VERSION_KEY] == s.running)
  }

  ghost predicate PassOk(hashes: Hashes, s: State, name: string, pass: Pass) {
    && (name, pass.spec) in s.history
    && (pass.listed.Some? ==> forall id :: id in pass.listed.value ==>
          && id in s.seen
          && (id in s.claims ==> Follows(hashes, s, name, pass.listed.value[id], s.claims[id])))
  }

  ghost predicate CreateOk(s: State, id: string) {
    id in s.creates && id in s.claims && s.claims[id].classRef.Some?
    && (s.claims[id].classRef.value, s.creates[id]) in s.history
  }

  ghost predicate Inv(hashes: Hashes, s: State) {
    && s.running in s.ran && "" !in s.ran
    && s.claims.Keys <= s.seen
    && (forall name :: name in s.live ==> (name, s.live[name]) in s.history)
    && (forall id :: id in s.claims ==> Genuine(hashes, s, s.claims[id]))
    && (forall name :: name in s.passes ==> PassOk(hashes, s, name, s.passes[name]))
    && (forall id :: id in s.creates ==> CreateOk(s, id))
  }

  lemma InitInv(hashes: Hashes, s: State)
    requires Init(s)
    ensures Inv(hashes, s)
  {
    forall name | name in s.live
      ensures (name, s.live[name]) in s.history
    {
    }
  }

  /** History only grows, so what was baselined stays baselined. */
  lemma HistoryGrows(hashes: Hashes, s: State, t: State)
    requires Inv(hashes, s)
    requires s.history <= t.history && s.ran <= t.ran && t.seen == s.seen && t.running == s.running
    requires t.claims == s.claims && t.passes == s.passes && t.creates == s.creates
    requires "" !in t.ran
    requires forall name :: name in t.live ==> (name, t.live[name]) in t.history
    ensures Inv(hashes, t)
  {
    forall version, name, digest | Baselined(hashes, s.history, version, name, digest)
      ensures Baselined(hashes, t.history, version, name, digest)
    {
      var spec :| (name, spec) in s.history && digest == hashes(version, spec);
      assert (name, spec) in t.history;
    }
    forall name | name in t.passes
      ensures PassOk(hashes, t, name, t.passes[name])
    {
      assert PassOk(hashes, s, name, s.passes[name]);
    }
    forall id | id in t.creates
      ensures CreateOk(t, id)
    {
      assert CreateOk(s, id);
    }
  }

  /** Replacing one claim keeps the invariant when the new claim is genuine and copies still follow it. */
  lemma ClaimReplaced(hashes: Hashes, s: State, id: string, c: Claim)
    requires Inv(hashes, s) && id in s.claims
    requires c.classRef == s.claims[id].classRef && Genuine(hashes, s, c)
    requires forall name :: name in s.passes && s.passes[name].listed.Some? && id in s.passes[name].listed.value ==>
               Follows(hashes, s, name, s.passes[name].listed.value[id], c)
    ensures Inv(hashes, s.(claims := s.claims[id := c]))
  {
    var t := s.(claims := s.claims[id := c]);
    forall name | name in t.passes
      ensures PassOk(hashes, t, name, t.passes[name])
    {
      assert PassOk(hashes, s, name, s.passes[name]);
    }
    forall other | other in t.creates
      ensures CreateOk(t, other)
    {
      assert CreateOk(s, other);
    }
  }

  lemma CreatedClaimOk(hashes: Hashes, s: State, id: string, providerID: string)
    requires Inv(hashes, s) && id in s.claims && id in s.creates
    ensures Inv(hashes, Apply(hashes, s, FinishCreate(id, providerID)))
  {
    assert CreateOk(s, id);
    var c := s.claims[id];
    var stamped := c.(providerID := providerID, annotations := Stamped(hashes, s.running, s.creates[id], c));
    assert Baselined(hashes, s.history, s.running, c.classRef.value, stamped.annotations[HASH_KEY]);
    forall name | name in s.passes && s.passes[name].listed.Some? && id in s.passes[name].listed.value
      ensures Follows(hashes, s, name, s.passes[name].listed.value[id], stamped)
    {
      assert PassOk(hashes, s, name, s.passes[name]);
    }
    ClaimReplaced(hashes, s, id, stamped);
    var t := s.(claims := s.claims[id := stamped]);
    var u := t.(creates := t.creates - {id});
    forall other | other in u.creates
      ensures CreateOk(u, other)
    {
      assert CreateOk(t, other);
    }
    forall name | name in u.passes
      ensures PassOk(hashes, u, name, u.passes[name])
    {
      assert PassOk(hashes, t, name, t.passes[name]);
    }
  }

  /** A patch computed from a copy that follows its claim leaves a genuine stamp. */
  lemma PatchedClaimGenuine(hashes: Hashes, s: State, name: string, spec: SpecValue, copy: Claim, c: Claim)
    requires s.running in s.ran && (name, spec) in s.history
    requires Genuine(hashes, s, c) && Follows(hashes, s, name, copy, c) && Eligible(s.running, copy)
    ensures var patched := c.(annotations :=
              MergePatch(c.annotations, copy.annotations, Stamped(hashes, s.running, spec, copy)));
            Genuine(hashes, s, patched) && Follows(hashes, s, name, copy, patched)
  {
    var to := Stamped(hashes, s.running, spec, copy);
    var patched := MergePatch(c.annotations, copy.annotations, to);
    assert Baselined(hashes, s.history, s.running, name, hashes(s.running, spec));
    if VERSION_KEY in patched {
      assert patched[VERSION_KEY] == s.running;
    }
  }

  lemma PatchInv(hashes: Hashes, s: State, name: string, id: string)
    requires Inv(hashes, s) && CanPatch(s, name, id)
    ensures Inv(hashes, Apply(hashes, s, PatchClaim(name, id)))
  {
    var pass := s.passes[name];
    var copy, c := pass.listed.value[id], s.claims[id];
    assert PassOk(hashes, s, name, pass);
    PatchedClaimGenuine(hashes, s, name, pass.spec, copy, c);
    var patched := c.(annotations := MergePatch(c.annotations, copy.annotations,
                                                Stamped(hashes, s.running, pass.spec, copy)));
    forall n | n in s.passes && s.passes[n].listed.Some? && id in s.passes[n].listed.value
      ensures Follows(hashes, s, n, s.passes[n].listed.value[id], patched)
    {
      assert PassOk(hashes, s, n, s.passes[n]);
      assert n == name;
    }
    ClaimReplaced(hashes, s, id, patched);
  }

  lemma StepInv(hashes: Hashes, s: State, step: Step)
    requires Inv(hashes, s)
    ensures Inv(hashes, Apply(hashes, s, step))
  {
    var t := Apply(hashes, s, step);
    match step
    case EditSpec(_, _) => HistoryGrows(hashes, s, t);
    case DeleteClass(_) => HistoryGrows(hashes, s, t);
    case SetDrifted(id, drifted) =>
      if id in s.claims {
        EditedClaimFollows(hashes, s, id, s.claims[id].(drifted := drifted));
        ClaimReplaced(hashes, s, id, s.claims[id].(drifted := drifted));
      }
    case DropAnnotation(id, key) =>
      if id in s.claims {
        var c := s.claims[id].(annotations := s.claims[id].annotations - {key});
        EditedClaimFollows(hashes, s, id, c);
        ClaimReplaced(hashes, s, id, c);
      }
    case FinishCreate(id, providerID) =>
      if id in s.claims && id in s.creates {
        CreatedClaimOk(hashes, s, id, providerID);
      }
    case PatchClaim(name, id) =>
      if CanPatch(s, name, id) {
        PatchInv(hashes, s, name, id);
      }
    case AddClaim(_, _) => ClaimStepInv(hashes, s, step);
    case RemoveClaim(_) => ClaimStepInv(hashes, s, step);
    case BeginCreate(_) => ClaimStepInv(hashes, s, step);
    case _ => PassStepInv(hashes, s, step);
  }

  /** A claim that lost annotations, or changed elsewhere, is still followed by its copies. */
  lemma EditedClaimFollows(hashes: Hashes, s: State, id: string, c: Claim)
    requires Inv(hashes, s) && id in s.claims && c.classRef == s.claims[id].classRef
    requires forall k :: k in c.annotations ==>
               k in s.claims[id].annotations && c.annotations[k] == s.claims[id].annotations[k]
    ensures forall name :: name in s.passes && s.passes[name].listed.Some? && id in s.passes[name].listed.value ==>
              Follows(hashes, s, name, s.passes[name].listed.value[id], c)
    ensures Genuine(hashes, s, c)
  {
    forall name | name in s.passes && s.passes[name].listed.Some? && id in s.passes[name].listed.value
      ensures Follows(hashes, s, name, s.passes[name].listed.value[id], c)
    {
      assert PassOk(hashes, s, name, s.passes[name]);
    }
  }

  lemma PassStepInv(hashes: Hashes, s: State, step: Step)
    requires Inv(hashes, s)
    requires step.BeginPass? || step.ListClaims? || step.EndPass? || step.Upgrade?
    ensures Inv(hashes, Apply(hashes, s, step))
  {
    var t := Apply(hashes, s, step);
    forall name | name in t.passes
      ensures PassOk(hashes, t, name, t.passes[name])
    {
      if name in s.passes {
        assert PassOk(hashes, s, name, s.passes[name]);
      }
    }
    forall id | id in t.creates
      ensures CreateOk(t, id)
    {
      assert CreateOk(s, id);
    }
  }

  lemma ClaimStepInv(hashes: Hashes, s: State, step: Step)
    requires Inv(hashes, s)
    requires step.AddClaim? || step.RemoveClaim? || step.BeginCreate?
    ensures Inv(hashes, Apply(hashes, s, step))
  {
    var t := Apply(hashes, s, step);
    forall name | name in t.passes
      ensures PassOk(hashes, t, name, t.passes[name])
    {
      assert PassOk(hashes, s, name, s.passes[name]);
    }
    forall id | id in t.creates
      ensures CreateOk(t, id)
    {
      if id in s.creates {
        assert CreateOk(s, id);
      }
    }
  }

  /** Every run keeps the invariant, wherever it starts. */
  lemma {:induction false} ExecInv(hashes: Hashes, s: State, steps: seq<Step>)
    requires Inv(hashes, s)
    ensures Inv(hashes, Exec(hashes, s, steps))
    decreases |steps|
  {
    if steps != [] {
      ExecInv(hashes, s, steps[..|steps| - 1]);
      StepInv(hashes, Exec(hashes, s, steps[..|steps| - 1]), steps[|steps| - 1]);
    }
  }

  lemma RunInv(hashes: Hashes, s: State, steps: seq<Step>)
    requires Init(s)
    ensures Inv(hashes, Exec(hashes, s, steps))
  {
    InitInv(hashes, s);
    ExecInv(hashes, s, steps);
  }

  /* --------------------------------------------------------------------- the theorems */

  function VerdictOn(hashes: Hashes, s: State, c: Claim): Verdict {
    IsDrifted(hashes, s.running, Resolve(s.live, c), c)
  }

  /** After `i` steps of the run, `spec` was the live spec of class `name`. */
  ghost predicate WasLive(hashes: Hashes, init: State, steps: seq<Step>, i: nat, name: string, spec: SpecValue) {
    i <= |steps| && name in Exec(hashes, init, steps[..i]).live && Exec(hashes, init, steps[..i]).live[name] == spec
  }

  /** What a step adds to the history is live after it. */
  lemma NewHistoryIsLive(hashes: Hashes, s: State, step: Step, name: string, spec: SpecValue)
    requires (name, spec) in Apply(hashes, s, step).history && (name, spec) !in s.history
    ensures name in Apply(hashes, s, step).live && Apply(hashes, s, step).live[name] == spec
  {
  }

  lemma WasLiveBefore(hashes: Hashes, init: State, steps: seq<Step>, last: Step, i: nat, name: string, spec: SpecValue)
    requires WasLive(hashes, init, steps, i, name, spec)
    ensures WasLive(hashes, init, steps + [last], i, name, spec)
  {
    assert (steps + [last])[..i] == steps[..i];
  }

  /** The history records specs that really were live, and nothing else. */
  lemma {:induction false} HistoryIsReal(hashes: Hashes, init: State, steps: seq<Step>, name: string, spec: SpecValue)
    requires Init(init) && (name, spec) in Exec(hashes, init, steps).history
    ensures exists i: nat :: WasLive(hashes, init, steps, i, name, spec)
    decreases |steps|
  {
    if steps == [] {
      assert steps[..0] == [];
      assert WasLive(hashes, init, steps, 0, name, spec);
    } else {
      var earlier, last := steps[..|steps| - 1], steps[|steps| - 1];
      if (name, spec) in Exec(hashes, init, earlier).history {
        HistoryIsReal(hashes, init, earlier, name, spec);
        var i: nat :| WasLive(hashes, init, earlier, i, name, spec);
        WasLiveBefore(hashes, init, earlier, last, i, name, spec);
        assert steps == earlier + [last];
      } else {
        NewHistoryIsLive(hashes, Exec(hashes, init, earlier), last, name, spec);
        assert steps[..|steps|] == steps;
        assert WasLive(hashes, init, steps, |steps|, name, spec);
      }
    }
  }

  /**
   * No false drift. After any run, a claim reported as drifted carries the digest, under the running
   * version, of a spec its class really had at some point of the run, and the live spec's normal
   * form is a different one.
   */
  lemma NoFalseDrift(hashes: Hashes, init: State, steps: seq<Step>, id: string)
    requires Init(init)
    requires id in Exec(hashes, init, steps).claims
    requires VerdictOn(hashes, Exec(hashes, init, steps), Exec(hashes, init, steps).claims[id]) == NodeClassDrifted
    ensures var s := Exec(hashes, init, steps);
            var c := s.claims[id];
            && c.classRef.Some? && c.classRef.value in s.live
            && exists base, i: nat ::
                 && WasLive(hashes, init, steps, i, c.classRef.value, base)
                 && Lookup(c.annotations, HASH_KEY) == hashes(s.running, base)
                 && (SeesNormalForm(hashes, s.running) ==> Normal(base) != Normal(s.live[c.classRef.value]))
  {
    RunInv(hashes, init, steps);
    var s := Exec(hashes, init, steps);
    var c := s.claims[id];
    assert Genuine(hashes, s, c);
    var base :| (c.classRef.value, base) in s.history && c.annotations[HASH_KEY] == hashes(s.running, base);
    HistoryIsReal(hashes, init, steps, c.classRef.value, base);
    var i: nat :| WasLive(hashes, init, steps, i, c.classRef.value, base);
  }

  /** Every spec class `name` ever has, initially or by an edit, has normal form `n`. */
  ghost predicate OnlyEverMeans(init: State, steps: seq<Step>, name: string, n: NormalForm) {
    && (name in init.live ==> Normal(init.live[name]) == n)
    && forall i :: 0 <= i < |steps| && steps[i].EditSpec? && steps[i].name == name ==> Normal(steps[i].spec) == n
  }

  lemma {:induction false} HistoryMeans(hashes: Hashes, init: State, steps: seq<Step>, name: string, n: NormalForm)
    requires Init(init) && OnlyEverMeans(init, steps, name, n)
    ensures forall spec :: (name, spec) in Exec(hashes, init, steps).history ==> Normal(spec) == n
    decreases |steps|
  {
    if steps != [] {
      var earlier := steps[..|steps| - 1];
      assert OnlyEverMeans(init, earlier, name, n) by {
        assert forall i :: 0 <= i < |earlier| ==> earlier[i] == steps[i];
      }
      HistoryMeans(hashes, init, earlier, name, n);
      assert steps[|steps| - 1].EditSpec? ==> steps[|steps| - 1] == steps[|steps| - 1];
    }
  }

  /**
   * A class whose spec never changes its meaning never has a drifted claim, whatever else happens:
   * list reordering, operator upgrades and rollbacks, interrupted passes, stale reads.
   */
  lemma UnchangedClassNeverDrifts(hashes: Hashes, init: State, steps: seq<Step>, name: string, n: NormalForm,
                                  id: string)
    requires Init(init) && OnlyEverMeans(init, steps, name, n)
    requires SeesNormalForm(hashes, Exec(hashes, init, steps).running)
    requires id in Exec(hashes, init, steps).claims && Exec(hashes, init, steps).claims[id].classRef == Some(name)
    ensures VerdictOn(hashes, Exec(hashes, init, steps), Exec(hashes, init, steps).claims[id]) == NotDrifted
  {
    var s := Exec(hashes, init, steps);
    RunInv(hashes, init, steps);
    HistoryMeans(hashes, init, steps, name, n);
    assert Genuine(hashes, s, s.claims[id]);
  }

  lemma {:induction false} RanIsHistory(hashes: Hashes, init: State, steps: seq<Step>, version: string)
    requires Init(init) && version in Exec(hashes, init, steps).ran
    ensures version == init.running || exists i :: 0 <= i < |steps| && steps[i] == Upgrade(version)
    decreases |steps|
  {
    if steps != [] {
      var last := steps[|steps| - 1];
      if version in Exec(hashes, init, steps[..|steps| - 1]).ran {
        RanIsHistory(hashes, init, steps[..|steps| - 1], version);
      } else {
        assert last == Upgrade(version);
      }
    }
  }

  /** The moment a version first starts running, no claim at all is reported as drifted. */
  lemma FirstUpgradeReportsNothing(hashes: Hashes, init: State, steps: seq<Step>, version: string, id: string)
    requires Init(init) && version != "" && version != init.running && Upgrade(version) !in steps
    requires id in Exec(hashes, init, steps).claims
    ensures var s := Apply(hashes, Exec(hashes, init, steps), Upgrade(version));
            s.running == version && id in s.claims && VerdictOn(hashes, s, s.claims[id]) == NotDrifted
  {
    var s := Exec(hashes, init, steps);
    RunInv(hashes, init, steps);
    if version in s.ran {
      RanIsHistory(hashes, init, steps, version);
      assert false;
    }
    assert Genuine(hashes, s, s.claims[id]);
  }
}
