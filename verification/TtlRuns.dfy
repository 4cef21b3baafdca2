/**
 * The NodeClaim TTL controller as a timed state machine. Between any two of its API calls the clock
 * advances, pods come and go, and others edit the node; any call may fail. A run is any sequence of
 * steps; a step whose guard fails does nothing. Times are in nanoseconds.
 */
module TtlRuns {
  import opened Prelude
  import opened PodMatching

  const SECOND := 1_000_000_000
  const TAINT_KEY := "karpenter.k8s.upcloud/decommissioning"
  const DECOMMISSIONING := Taint(TAINT_KEY, "", "NoSchedule")

  /** The reset annotation: missing, unparsable, or a time in whole seconds (RFC 3339). */
  datatype ResetMark = Unset | Garbage | At(seconds: int)

  /** time.Format(time.RFC3339) drops the fraction of a second. */
  function Format(now: int): ResetMark {
    At(now / SECOND)
  }

  datatype Claim = Claim(creation: int, reset: ResetMark, nodeName: string, deleting: bool)

  /** ttlStart. Creation timestamps, too, are in whole seconds. */
  function TtlStart(c: Claim): int {
    (if c.reset.At? then c.reset.seconds else c.creation) * SECOND
  }

  /** How far a reconcile has come, with the copies it holds. */
  datatype Phase =
    | Idle
    | Read(claim: Claim)
    | Expired(claim: Claim)
    | Resetting(claim: Claim)
    | Marking(claim: Claim, now: int)
    | Empty(claim: Claim, pods: seq<Pod>)
    | Tainting(claim: Claim, pods: seq<Pod>, node: Node)
    | Deleting(claim: Claim, pods: seq<Pod>, node: Node)

  /** What a deletion was based on, and the node's taints when it was issued. */
  datatype Deletion = Deletion(time: int, nodeName: string, pods: seq<Pod>, node: Node, taints: Option<seq<Taint>>)

  datatype State = State(
    now: int,
    claim: Option<Claim>,
    node: Option<Node>,
    pods: seq<Pod>,
    phase: Phase,
    lastReset: Option<int>,
    deletion: Option<Deletion>)

  datatype Step =
    // the rest of the world
    | Tick(elapsed: nat)
    | SetPods(pods: seq<Pod>)
    | Register(nodeName: string, node: Node)
    | EditNode(labels: map<string, string>, taints: seq<Taint>)
    | RemoveNode
    | MarkDeleting
    // the controller
    | GetClaim
    | CheckTtl
    | ListPods
    | GetNode
    | ReadClock
    | PatchReset
    | PatchTaint
    | DeleteClaim
    | Fail

  predicate External(step: Step) {
    step.Tick? || step.SetPods? || step.Register? || step.EditNode? || step.RemoveNode? || step.MarkDeleting?
  }

  /** The taints with the given key, or those with another one, in their order. */
  function Select(taints: seq<Taint>, key: string, equal: bool): seq<Taint> {
    if taints == [] then []
    else (if (taints[0].key == key) == equal then [taints[0]] else []) + Select(taints[1..], key, equal)
  }

  function KeyTaints(taints: seq<Taint>): seq<Taint> {
    Select(taints, TAINT_KEY, true)
  }

  function OtherTaints(taints: seq<Taint>): seq<Taint> {
    Select(taints, TAINT_KEY, false)
  }

  predicate HasKey(taints: seq<Taint>) {
    exists i :: 0 <= i < |taints| && taints[i].key == TAINT_KEY
  }

  /** taintNode on the copy that was read: only the key is looked at. */
  function WithDecommissioning(taints: seq<Taint>): seq<Taint> {
    if HasKey(taints) then taints else taints + [DECOMMISSIONING]
  }

  /** The decision once the TTL has expired and the pods are listed. */
  function AfterPods(c: Claim, pods: seq<Pod>): Phase {
    if Busy(pods, c.nodeName) then Resetting(c) else Empty(c, pods)
  }

  function AfterNode(c: Claim, pods: seq<Pod>, node: Node): Phase {
    if Wanted(pods, node) then Resetting(c) else Tainting(c, pods, node)
  }

  function Apply(ttl: int, s: State, step: Step): State {
    match step
    case Tick(elapsed) => s.(now := s.now + elapsed)
    case SetPods(pods) => s.(pods := pods)
    case Register(nodeName, node) =>
      if s.claim.Some? && s.claim.value.nodeName == "" && nodeName != "" && !HasKey(node.taints)
      then s.(claim := Some(s.claim.value.(nodeName := nodeName)), node := Some(node))
      else s
    case EditNode(labels, taints) =>
      // others may edit the node's labels and their own taints, not this controller's
      if s.node.Some? && KeyTaints(taints) == KeyTaints(s.node.value.taints)
      then s.(node := Some(Node(labels, taints)))
      else s
    case RemoveNode => s.(node := None)
    case MarkDeleting =>
      if s.claim.Some? then s.(claim := Some(s.claim.value.(deleting := true))) else s
    case GetClaim =>
      if s.phase.Idle? && s.claim.Some? && !s.claim.value.deleting && s.claim.value.nodeName != ""
      then s.(phase := Read(s.claim.value))
      else s
    case CheckTtl =>
      if !s.phase.Read? then s
      else if s.now - TtlStart(s.phase.claim) < ttl then s.(phase := Idle)
      else s.(phase := Expired(s.phase.claim))
    case ListPods =>
      if s.phase.Expired? then s.(phase := AfterPods(s.phase.claim, s.pods)) else s
    case GetNode =>
      if s.phase.Empty? && s.node.Some?
      then s.(phase := AfterNode(s.phase.claim, s.phase.pods, s.node.value))
      else s
    case ReadClock =>
      if s.phase.Resetting? then s.(phase := Marking(s.phase.claim, s.now)) else s
    case PatchReset =>
      if s.phase.Marking? && s.claim.Some?
      then s.(claim := Some(s.claim.value.(reset := Format(s.phase.now))), lastReset := Some(s.phase.now),
              phase := Idle)
      else s
    case PatchTaint =>
      if !s.phase.Tainting? then s
      else if HasKey(s.phase.node.taints) then s.(phase := Deleting(s.phase.claim, s.phase.pods, s.phase.node))
      else if s.node.Some?
      // a merge patch of a list carries the whole list
      then s.(node := Some(s.node.value.(taints := WithDecommissioning(s.phase.node.taints))),
              phase := Deleting(s.phase.claim, s.phase.pods, s.phase.node))
      else s
    case DeleteClaim =>
      if s.phase.Deleting? && s.claim.Some?
      then s.(claim := None, phase := Idle,
              deletion := Some(Deletion(s.now, s.phase.claim.nodeName, s.phase.pods, s.phase.node,
                                        if s.node.Some? then Some(s.node.value.taints) else None)))
      else s
    case Fail => s.(phase := Idle)
  }

  ghost function Exec(ttl: int, s: State, steps: seq<Step>): State
    decreases |steps|
  {
    if steps == [] then s
    else Apply(ttl, Exec(ttl, s, steps[..|steps| - 1]), steps[|steps| - 1])
  }

  lemma ExecSnoc(ttl: int, s: State, steps: seq<Step>, last: Step)
    ensures Exec(ttl, s, steps + [last]) == Apply(ttl, Exec(ttl, s, steps), last)
  {
    assert (steps + [last])[..|steps|] == steps;
  }

  lemma {:induction false} ExecAppend(ttl: int, s: State, first: seq<Step>, second: seq<Step>)
    ensures Exec(ttl, s, first + second) == Exec(ttl, Exec(ttl, s, first), second)
    decreases |second|
  {
    if second == [] {
      assert first + [] == first;
    } else {
      var earlier := second[..|second| - 1];
      ExecAppend(ttl, s, first, earlier);
      assert first + second == (first + earlier) + [second[|second| - 1]];
      ExecSnoc(ttl, s, first + earlier, second[|second| - 1]);
    }
  }

  ghost predicate Init(s: State) {
    && s.claim.Some? && !s.claim.value.reset.At?
    && (s.node.Some? ==> !HasKey(s.node.value.taints))
    && s.phase.Idle? && s.lastReset.None? && s.deletion.None?
  }

  /* ------------------------------------------------------------------- taint lists */

  lemma Associative(a: seq<Taint>, b: seq<Taint>, c: seq<Taint>)
    ensures (a + b) + c == a + (b + c)
  {
  }

  lemma SelectCons(t: Taint, rest: seq<Taint>, key: string, equal: bool)
    ensures Select([t] + rest, key, equal) == (if (t.key == key) == equal then [t] else []) + Select(rest, key, equal)
  {
    assert ([t] + rest)[1..] == rest;
  }

  lemma {:induction false} SelectAppend(a: seq<Taint>, b: seq<Taint>, key: string, equal: bool)
    ensures Select(a + b, key, equal) == Select(a, key, equal) + Select(b, key, equal)
  {
    if a == [] {
      assert [] + b == b;
    } else {
      SelectAppend(a[1..], b, key, equal);
      SelectCons(a[0], a[1..], key, equal);
      SelectCons(a[0], a[1..] + b, key, equal);
      assert a == [a[0]] + a[1..] && a + b == [a[0]] + (a[1..] + b);
      Associative(if (a[0].key == key) == equal then [a[0]] else [], Select(a[1..], key, equal), Select(b, key, equal));
    }
  }

  lemma {:induction false} SelectEmpty(taints: seq<Taint>, key: string)
    ensures Select(taints, key, true) == [] <==> forall i :: 0 <= i < |taints| ==> taints[i].key != key
  {
    if taints != [] {
      SelectEmpty(taints[1..], key);
      assert forall i :: 0 <= i < |taints[1..]| ==> taints[1..][i] == taints[i + 1];
      assert taints == [taints[0]] + taints[1..];
    }
  }

  lemma KeyTaintsEmpty(taints: seq<Taint>)
    ensures KeyTaints(taints) == [] <==> !HasKey(taints)
  {
    SelectEmpty(taints, TAINT_KEY);
  }

  /** Tainting adds this one taint where it was missing, and leaves the others in their order. */
  lemma TaintingExact(taints: seq<Taint>)
    ensures WithDecommissioning(taints) ==
              if exists i :: 0 <= i < |taints| && taints[i].key == "karpenter.k8s.upcloud/decommissioning" then taints
              else taints + [Taint("karpenter.k8s.upcloud/decommissioning", "", "NoSchedule")]
    ensures OtherTaints(WithDecommissioning(taints)) == OtherTaints(taints)
    ensures KeyTaints(WithDecommissioning(taints)) == (if HasKey(taints) then KeyTaints(taints) else [DECOMMISSIONING])
  {
    KeyTaintsEmpty(taints);
    SelectAppend(taints, [DECOMMISSIONING], TAINT_KEY, true);
    SelectAppend(taints, [DECOMMISSIONING], TAINT_KEY, false);
    assert KeyTaints([DECOMMISSIONING]) == [DECOMMISSIONING] && OtherTaints([DECOMMISSIONING]) == [];
  }

  /** At most one taint with the key, and it is the NoSchedule one. */
  ghost predicate CleanTaints(taints: seq<Taint>) {
    KeyTaints(taints) == [] || KeyTaints(taints) == [DECOMMISSIONING]
  }

  /* ------------------------------------------------------------------- the invariant */

  /** The copy a reconcile holds agrees with the claim on everything the TTL depends on. */
  ghost predicate HoldsClaim(s: State, c: Claim) {
    s.claim.Some? ==>
      && s.claim.value.creation == c.creation && s.claim.value.reset == c.reset
      && s.claim.value.nodeName == c.nodeName
  }

  ghost predicate Due(ttl: int, s: State, c: Claim) {
    HoldsClaim(s, c) && c.nodeName != "" && s.now - TtlStart(c) >= ttl
  }

  ghost predicate PhaseOk(ttl: int, s: State) {
    match s.phase
    case Idle => true
    case Read(c) => HoldsClaim(s, c) && c.nodeName != ""
    case Expired(c) => Due(ttl, s, c)
    case Resetting(c) => Due(ttl, s, c)
    case Marking(c, now) => Due(ttl, s, c) && now <= s.now && now - TtlStart(c) >= ttl
    case Empty(c, pods) => Due(ttl, s, c) && !Busy(pods, c.nodeName)
    case Tainting(c, pods, node) =>
      && Due(ttl, s, c) && !Busy(pods, c.nodeName) && !Wanted(pods, node) && CleanTaints(node.taints)
      && (HasKey(node.taints) && s.node.Some? ==> HasKey(s.node.value.taints))
    case Deleting(c, pods, node) =>
      && Due(ttl, s, c) && !Busy(pods, c.nodeName) && !Wanted(pods, node)
      && (s.node.Some? ==> HasKey(s.node.value.taints))
  }

  /** The stored mark is the last reset, rounded down to the second. */
  ghost predicate MarkOk(s: State) {
    && (s.claim.Some? && s.claim.value.reset.At? ==>
          s.lastReset.Some? && s.claim.value.reset == Format(s.lastReset.value))
    && (s.claim.Some? && !s.claim.value.reset.At? ==> s.lastReset.None?)
  }

  /** What holds of a deletion once it has happened. */
  ghost predicate Justified(ttl: int, creation: int, lastReset: Option<int>, d: Deletion) {
    && d.time >= (if lastReset.Some? then (lastReset.value / SECOND) * SECOND else creation * SECOND) + ttl
    && !Busy(d.pods, d.nodeName) && !Wanted(d.pods, d.node)
    && (d.taints.Some? ==> KeyTaints(d.taints.value) == [DECOMMISSIONING])
  }

  /** `creation` is the claim's creation time, in seconds. */
  ghost predicate Inv(ttl: int, s: State, creation: int) {
    && (s.claim.Some? ==> s.claim.value.creation == creation && s.deletion.None?)
    && (s.node.Some? ==> CleanTaints(s.node.value.taints))
    && MarkOk(s) && PhaseOk(ttl, s)
    && (s.deletion.Some? ==> s.claim.None? && Justified(ttl, creation, s.lastReset, s.deletion.value))
  }

  lemma InitInv(ttl: int, s: State)
    requires Init(s)
    ensures Inv(ttl, s, s.claim.value.creation)
  {
    if s.node.Some? {
      KeyTaintsEmpty(s.node.value.taints);
    }
  }

  /** What others do to the node keeps this controller's taint on it, or off it. */
  lemma SameKeySameTaint(a: seq<Taint>, b: seq<Taint>)
    requires KeyTaints(a) == KeyTaints(b)
    ensures HasKey(a) <==> HasKey(b)
  {
    KeyTaintsEmpty(a);
    KeyTaintsEmpty(b);
  }

  lemma ExternalInv(ttl: int, s: State, creation: int, step: Step)
    requires Inv(ttl, s, creation) && External(step)
    ensures Inv(ttl, Apply(ttl, s, step), creation)
  {
    match step
    case Register(_, node) => KeyTaintsEmpty(node.taints);
    case EditNode(_, taints) =>
      if s.node.Some? && KeyTaints(taints) == KeyTaints(s.node.value.taints) {
        SameKeySameTaint(taints, s.node.value.taints);
      }
    case _ =>
  }

  lemma TaintInv(ttl: int, s: State, creation: int)
    requires Inv(ttl, s, creation)
    ensures Inv(ttl, Apply(ttl, s, PatchTaint), creation)
  {
    if s.phase.Tainting? {
      TaintingExact(s.phase.node.taints);
      KeyTaintsEmpty(WithDecommissioning(s.phase.node.taints));
    }
  }

  lemma ControllerInv(ttl: int, s: State, creation: int, step: Step)
    requires Inv(ttl, s, creation) && !External(step) && step != PatchTaint
    ensures Inv(ttl, Apply(ttl, s, step), creation)
  {
    if step.DeleteClaim? && s.phase.Deleting? && s.node.Some? {
      KeyTaintsEmpty(s.node.value.taints);
    }
  }

  lemma StepInv(ttl: int, s: State, creation: int, step: Step)
    requires Inv(ttl, s, creation)
    ensures Inv(ttl, Apply(ttl, s, step), creation)
  {
    if External(step) {
      ExternalInv(ttl, s, creation, step);
    } else if step == PatchTaint {
      TaintInv(ttl, s, creation);
    } else {
      ControllerInv(ttl, s, creation, step);
    }
  }

  lemma {:induction false} ExecInv(ttl: int, s: State, creation: int, steps: seq<Step>)
    requires Inv(ttl, s, creation)
    ensures Inv(ttl, Exec(ttl, s, steps), creation)
    decreases |steps|
  {
    if steps != [] {
      ExecInv(ttl, s, creation, steps[..|steps| - 1]);
      StepInv(ttl, Exec(ttl, s, steps[..|steps| - 1]), creation, steps[|steps| - 1]);
    }
  }

  /* ------------------------------------------------------------------------ the theorems */

  /** Where a claim's TTL starts: the last reset, rounded down to the second, or else the creation. */
  function StartOf(creation: int, lastReset: Option<int>): int {
    if lastReset.Some? then lastReset.value - lastReset.value % SECOND else creation * SECOND
  }

  /** In every state of every run. */
  lemma StartIsLastReset(ttl: int, init: State, steps: seq<Step>)
    requires Init(init) && Exec(ttl, init, steps).claim.Some?
    ensures var s := Exec(ttl, init, steps);
            TtlStart(s.claim.value) == StartOf(init.claim.value.creation, s.lastReset)
  {
    InitInv(ttl, init);
    ExecInv(ttl, init, init.claim.value.creation, steps);
  }

  /**
   * A reconcile takes up exactly the claims that exist, are not being deleted and have a node; and it
   * goes on to look at the pods exactly when a full TTL has passed since the claim's start.
   */
  lemma TakenUpExactly(ttl: int, init: State, steps: seq<Step>)
    requires Init(init)
    ensures var s := Exec(ttl, init, steps);
            && (s.phase.Idle? ==>
                  (Apply(ttl, s, GetClaim).phase.Read?
                   <==> s.claim.Some? && !s.claim.value.deleting && s.claim.value.nodeName != ""))
            && (s.phase.Read? && s.claim.Some? ==>
                  (Apply(ttl, s, CheckTtl).phase.Expired?
                   <==> s.now - StartOf(init.claim.value.creation, s.lastReset) >= ttl))
  {
    InitInv(ttl, init);
    ExecInv(ttl, init, init.claim.value.creation, steps);
    if Exec(ttl, init, steps).claim.Some? {
      StartIsLastReset(ttl, init, steps);
    }
  }

  /**
   * No early deletion, in any run: a claim is deleted no sooner than a full TTL after the last reset
   * rounded down to the second, or after its creation if it was never reset; so at most one second
   * short of a full TTL after the last reset.
   */
  lemma NeverDeletedEarly(ttl: int, init: State, steps: seq<Step>)
    requires Init(init) && Exec(ttl, init, steps).deletion.Some?
    ensures var s := Exec(ttl, init, steps);
            && (s.lastReset.None? ==> s.deletion.value.time >= init.claim.value.creation * SECOND + ttl)
            && (s.lastReset.Some? ==>
                  && s.deletion.value.time >= (s.lastReset.value / SECOND) * SECOND + ttl
                  && s.deletion.value.time > s.lastReset.value + ttl - SECOND)
  {
    InitInv(ttl, init);
    ExecInv(ttl, init, init.claim.value.creation, steps);
  }

  ghost predicate PodsWere(ttl: int, init: State, steps: seq<Step>, i: nat, pods: seq<Pod>) {
    i <= |steps| && Exec(ttl, init, steps[..i]).pods == pods
  }

  ghost predicate NodeWas(ttl: int, init: State, steps: seq<Step>, j: nat, node: Node) {
    j <= |steps| && Exec(ttl, init, steps[..j]).node == Some(node)
  }

  /** First the pods and then the node were as in the copies. */
  ghost predicate Observed(ttl: int, init: State, steps: seq<Step>, pods: seq<Pod>, node: Node) {
    exists i: nat, j: nat :: i <= j && PodsWere(ttl, init, steps, i, pods) && NodeWas(ttl, init, steps, j, node)
  }

  lemma StillObserved(ttl: int, init: State, steps: seq<Step>, last: Step)
    ensures forall i: nat, pods :: PodsWere(ttl, init, steps, i, pods) ==> PodsWere(ttl, init, steps + [last], i, pods)
    ensures forall pods, node :: Observed(ttl, init, steps, pods, node) ==>
              Observed(ttl, init, steps + [last], pods, node)
  {
    var longer := steps + [last];
    assert forall i :: 0 <= i <= |steps| ==> longer[..i] == steps[..i];
    forall pods, node | Observed(ttl, init, steps, pods, node)
      ensures Observed(ttl, init, longer, pods, node)
    {
      var i: nat, j: nat :| i <= j && PodsWere(ttl, init, steps, i, pods) && NodeWas(ttl, init, steps, j, node);
      assert PodsWere(ttl, init, longer, i, pods) && NodeWas(ttl, init, longer, j, node);
    }
  }

  /** The copies held in `s` were observed during the run. */
  ghost predicate CopiesObserved(ttl: int, init: State, steps: seq<Step>, s: State) {
    && (s.phase.Empty? ==> exists i: nat :: PodsWere(ttl, init, steps, i, s.phase.pods))
    && (s.phase.Tainting? || s.phase.Deleting? ==> Observed(ttl, init, steps, s.phase.pods, s.phase.node))
    && (s.deletion.Some? ==> Observed(ttl, init, steps, s.deletion.value.pods, s.deletion.value.node))
  }

  /** Copies only enter a reconcile when the pods are listed and when the node is read. */
  lemma OtherStepsKeepCopies(ttl: int, init: State, steps: seq<Step>, s: State, last: Step)
    requires CopiesObserved(ttl, init, steps, s) && !last.ListPods? && !last.GetNode?
    ensures CopiesObserved(ttl, init, steps, Apply(ttl, s, last))
  {
  }

  /** The copies a reconcile decides on, and those a deletion was based on, are real. */
  lemma {:induction false} CopiesAreReal(ttl: int, init: State, steps: seq<Step>)
    requires Init(init)
    ensures CopiesObserved(ttl, init, steps, Exec(ttl, init, steps))
    decreases |steps|
  {
    if steps != [] {
      var earlier, last := steps[..|steps| - 1], steps[|steps| - 1];
      var s := Exec(ttl, init, earlier);
      CopiesAreReal(ttl, init, earlier);
      assert steps == earlier + [last] && steps[..|steps| - 1] == earlier;
      StillObserved(ttl, init, earlier, last);
      assert CopiesObserved(ttl, init, steps, s);
      if last.ListPods? {
        assert PodsWere(ttl, init, steps, |steps| - 1, s.pods);
      } else if last.GetNode? {
        if s.phase.Empty? && s.node.Some? {
          assert NodeWas(ttl, init, steps, |steps| - 1, s.node.value);
        }
      } else {
        OtherStepsKeepCopies(ttl, init, steps, s, last);
      }
    }
  }

  /**
   * Every deletion was preceded by an observation, at one point of the run, of pods among which none
   * is live and non-DaemonSet on the claim's node, and, at a later point, of a node that none of
   * those pods matches; and the node, if it still exists, then carries exactly one decommissioning
   * taint, the NoSchedule one.
   */
  lemma DeletionIsJustified(ttl: int, init: State, steps: seq<Step>)
    requires Init(init) && Exec(ttl, init, steps).deletion.Some?
    ensures var d := Exec(ttl, init, steps).deletion.value;
            && Observed(ttl, init, steps, d.pods, d.node)
            && (forall p :: p in d.pods && p.nodeName == d.nodeName ==> p.deleting || "DaemonSet" in p.ownerKinds)
            && (forall p :: p in d.pods && p.phase == "Pending" && p.nodeName == "" ==>
                  || (exists c :: && c in p.conditions && c.kind == "PodScheduled"
                                  && (c.status == True || c.reason != "Unschedulable"))
                  || !Fits(p, Lookup(d.node.labels, INSTANCE_TYPE))
                  || !ToleratesNode(p, d.node.taints))
            && (d.taints.Some? ==> OnlyDecommissioning(d.taints.value))
  {
    InitInv(ttl, init);
    ExecInv(ttl, init, init.claim.value.creation, steps);
    CopiesAreReal(ttl, init, steps);
    var d := Exec(ttl, init, steps).deletion.value;
    if d.taints.Some? {
      OneKeyTaint(d.taints.value);
    }
    forall p | p in d.pods && p.phase == "Pending" && p.nodeName == ""
      ensures !Matches(p, Lookup(d.node.labels, INSTANCE_TYPE), d.node.taints)
    {
    }
  }

  /** One taint with the key, with effect NoSchedule, and no other. */
  ghost predicate OnlyDecommissioning(taints: seq<Taint>) {
    exists i :: && 0 <= i < |taints| && taints[i].key == TAINT_KEY && taints[i].effect == "NoSchedule"
                && forall j :: 0 <= j < |taints| && j != i ==> taints[j].key != TAINT_KEY
  }

  lemma {:induction false} OneKeyTaint(taints: seq<Taint>)
    requires KeyTaints(taints) == [DECOMMISSIONING]
    ensures OnlyDecommissioning(taints)
  {
    var rest := taints[1..];
    SelectCons(taints[0], rest, TAINT_KEY, true);
    assert taints == [taints[0]] + rest;
    if taints[0].key == TAINT_KEY {
      KeyTaintsEmpty(rest);
      assert KeyTaints(taints)[1..] == KeyTaints(rest);
      assert forall j :: 0 < j < |taints| ==> taints[j] == rest[j - 1];
      assert KeyTaints(taints)[0] == taints[0];
    } else {
      OneKeyTaint(rest);
      var i :| && 0 <= i < |rest| && rest[i].key == TAINT_KEY && rest[i].effect == "NoSchedule"
               && forall j :: 0 <= j < |rest| && j != i ==> rest[j].key != TAINT_KEY;
      assert taints[i + 1] == rest[i];
      assert forall j :: 0 < j < |taints| ==> taints[j] == rest[j - 1];
    }
  }

  /** In every state of every run the node carries at most one such taint, and it is NoSchedule. */
  lemma NodeStaysClean(ttl: int, init: State, steps: seq<Step>)
    requires Init(init) && Exec(ttl, init, steps).node.Some?
    ensures CleanTaints(Exec(ttl, init, steps).node.value.taints)
  {
    InitInv(ttl, init);
    ExecInv(ttl, init, init.claim.value.creation, steps);
  }

  lemma StartAdvances(ttl: int, s: State, creation: int, step: Step)
    requires ttl > 0 && Inv(ttl, s, creation) && s.claim.Some? && Apply(ttl, s, step).claim.Some?
    ensures TtlStart(Apply(ttl, s, step).claim.value) >= TtlStart(s.claim.value)
  {
    if step.PatchReset? && s.phase.Marking? {
      assert s.phase.now > TtlStart(s.claim.value);
    }
  }

  lemma ClaimStaysGone(ttl: int, s: State, steps: seq<Step>)
    requires s.claim.None?
    ensures Exec(ttl, s, steps).claim.None?
    decreases |steps|
  {
    if steps != [] {
      ClaimStaysGone(ttl, s, steps[..|steps| - 1]);
    }
  }

  lemma {:induction false} StartAdvancesOver(ttl: int, s: State, creation: int, more: seq<Step>)
    requires ttl > 0 && Inv(ttl, s, creation) && s.claim.Some? && Exec(ttl, s, more).claim.Some?
    ensures TtlStart(Exec(ttl, s, more).claim.value) >= TtlStart(s.claim.value)
    decreases |more|
  {
    if more != [] {
      var earlier, last := more[..|more| - 1], more[|more| - 1];
      var mid := Exec(ttl, s, earlier);
      ExecInv(ttl, s, creation, earlier);
      if mid.claim.Some? {
        StartAdvancesOver(ttl, s, creation, earlier);
        StartAdvances(ttl, mid, creation, last);
      }
    }
  }

  /** The start of the TTL never moves backwards, however far a run is continued. */
  lemma StartNeverMovesBack(ttl: int, init: State, steps: seq<Step>, more: seq<Step>)
    requires ttl > 0 && Init(init)
    requires Exec(ttl, init, steps + more).claim.Some?
    ensures Exec(ttl, init, steps).claim.Some?
    ensures TtlStart(Exec(ttl, init, steps + more).claim.value) >= TtlStart(Exec(ttl, init, steps).claim.value)
  {
    var s := Exec(ttl, init, steps);
    ExecAppend(ttl, init, steps, more);
    if s.claim.None? {
      ClaimStaysGone(ttl, s, more);
    }
    InitInv(ttl, init);
    ExecInv(ttl, init, init.claim.value.creation, steps);
    StartAdvancesOver(ttl, s, init.claim.value.creation, more);
  }

  /**
   * The taint patch carries the taint list of the copy that was read. It leaves the other taints as
   * they are exactly when nobody edited them between the read and the patch.
   */
  lemma TaintPatchLosesNothingExactly(ttl: int, s: State)
    requires s.phase.Tainting? && s.node.Some? && !HasKey(s.phase.node.taints)
    ensures var t := Apply(ttl, s, PatchTaint);
            && t.node.Some? && HasKey(t.node.value.taints)
            && (OtherTaints(t.node.value.taints) == OtherTaints(s.node.value.taints)
                <==> OtherTaints(s.phase.node.taints) == OtherTaints(s.node.value.taints))
  {
    TaintingExact(s.phase.node.taints);
    KeyTaintsEmpty(WithDecommissioning(s.phase.node.taints));
  }

  /** On a tainted node only a pod that tolerates the taint can keep the claim alive. */
  lemma OnlyToleratingPodsReset(claim: Claim, pods: seq<Pod>, node: Node)
    requires HasKey(node.taints) && CleanTaints(node.taints) && AfterNode(claim, pods, node).Resetting?
    ensures exists p :: p in pods && MayStillCome(p)
  {
    KeyTaintsEmpty(node.taints);
    SelectedAreThere(node.taints, TAINT_KEY);
    var p :| p in pods && Matches(p, Lookup(node.labels, INSTANCE_TYPE), node.taints);
    assert Hard(DECOMMISSIONING);
  }

  /** Where the taint is on, the claim has a node, so no other node can be registered for it. */
  ghost predicate TaintedIsNamed(s: State) {
    s.node.Some? && HasKey(s.node.value.taints) && s.claim.Some? ==> s.claim.value.nodeName != ""
  }

  lemma {:induction false} TaintedIsNamedAlways(ttl: int, init: State, steps: seq<Step>)
    requires Init(init)
    ensures TaintedIsNamed(Exec(ttl, init, steps))
    decreases |steps|
  {
    if steps != [] {
      var earlier, last := steps[..|steps| - 1], steps[|steps| - 1];
      var s := Exec(ttl, init, earlier);
      TaintedIsNamedAlways(ttl, init, earlier);
      InitInv(ttl, init);
      ExecInv(ttl, init, init.claim.value.creation, earlier);
      if last.EditNode? && s.node.Some? && KeyTaints(last.taints) == KeyTaints(s.node.value.taints) {
        SameKeySameTaint(last.taints, s.node.value.taints);
      }
    }
  }

  /** No node without the taint. */
  ghost predicate OnlyTainted(s: State) {
    s.node.Some? ==> HasKey(s.node.value.taints)
  }

  lemma StaysTainted(ttl: int, s: State, creation: int, step: Step)
    requires Inv(ttl, s, creation) && OnlyTainted(s)
    requires s.claim.Some? ==> s.claim.value.nodeName != ""
    ensures var t := Apply(ttl, s, step);
            OnlyTainted(t) && (t.claim.Some? ==> t.claim.value.nodeName != "")
  {
    match step
    case EditNode(_, taints) =>
      if s.node.Some? && KeyTaints(taints) == KeyTaints(s.node.value.taints) {
        SameKeySameTaint(taints, s.node.value.taints);
      }
    case PatchTaint =>
      if s.phase.Tainting? && !HasKey(s.phase.node.taints) {
        assert WithDecommissioning(s.phase.node.taints)[|s.phase.node.taints|] == DECOMMISSIONING;
      }
    case _ =>
  }

  lemma {:induction false} StaysTaintedOver(ttl: int, s: State, creation: int, more: seq<Step>)
    requires Inv(ttl, s, creation) && OnlyTainted(s)
    requires s.claim.Some? ==> s.claim.value.nodeName != ""
    ensures OnlyTainted(Exec(ttl, s, more))
    ensures Exec(ttl, s, more).claim.Some? ==> Exec(ttl, s, more).claim.value.nodeName != ""
    decreases |more|
  {
    if more != [] {
      var earlier := more[..|more| - 1];
      StaysTaintedOver(ttl, s, creation, earlier);
      ExecInv(ttl, s, creation, earlier);
      StaysTainted(ttl, Exec(ttl, s, earlier), creation, more[|more| - 1]);
    }
  }

  /** Pending, bound to no node, and tolerating the decommissioning taint. */
  predicate MayStillCome(p: Pod) {
    p.phase == "Pending" && p.nodeName == "" && Tolerated(DECOMMISSIONING, p.tolerations)
  }

  /**
   * Once the taint is on, then in every continuation of the run, under any interference, a reconcile
   * decides to reset the TTL only because a live non-DaemonSet pod was on the node when it listed the
   * pods, or because one of the pods it listed tolerates the taint.
   */
  lemma AfterTaintOnlyToleratingPodsReset(ttl: int, init: State, steps: seq<Step>, more: seq<Step>, step: Step)
    requires Init(init)
    requires Exec(ttl, init, steps).node.Some? && HasKey(Exec(ttl, init, steps).node.value.taints)
    requires var s := Exec(ttl, init, steps + more);
             !s.phase.Resetting? && Apply(ttl, s, step).phase.Resetting?
    ensures var s := Exec(ttl, init, steps + more);
            || (step.ListPods? && s.phase.Expired? && Busy(s.pods, s.phase.claim.nodeName))
            || (step.GetNode? && s.phase.Empty? && exists p :: p in s.phase.pods && MayStillCome(p))
  {
    var tainted, s := Exec(ttl, init, steps), Exec(ttl, init, steps + more);
    var creation := init.claim.value.creation;
    InitInv(ttl, init);
    ExecInv(ttl, init, creation, steps);
    ExecInv(ttl, init, creation, steps + more);
    TaintedIsNamedAlways(ttl, init, steps);
    ExecAppend(ttl, init, steps, more);
    StaysTaintedOver(ttl, tainted, creation, more);
    if step.GetNode? {
      OnlyToleratingPodsReset(s.phase.claim, s.phase.pods, s.node.value);
    }
  }

  lemma {:induction false} SelectedAreThere(taints: seq<Taint>, key: string)
    ensures forall t :: t in Select(taints, key, true) ==> t in taints
  {
    if taints != [] {
      SelectedAreThere(taints[1..], key);
    }
  }

  /** What one undisturbed reconcile comes to: the steps of the paths it does not take do nothing. */
  ghost function QuietReconcile(ttl: int, s: State): State {
    AfterListing(ttl, Apply(ttl, Apply(ttl, Apply(ttl, s, GetClaim), CheckTtl), ListPods))
  }

  ghost function AfterListing(ttl: int, s: State): State {
    var reset := Apply(ttl, Apply(ttl, s, ReadClock), PatchReset);
    var seen := Apply(ttl, reset, GetNode);
    var reused := Apply(ttl, Apply(ttl, seen, ReadClock), PatchReset);
    Apply(ttl, Apply(ttl, reused, PatchTaint), DeleteClaim)
  }

  lemma ListsWhenExpired(ttl: int, s: State)
    requires s.phase.Idle? && s.claim.Some? && !s.claim.value.deleting && s.claim.value.nodeName != ""
    requires s.now - TtlStart(s.claim.value) >= ttl
    ensures Apply(ttl, Apply(ttl, Apply(ttl, s, GetClaim), CheckTtl), ListPods)
         == s.(phase := AfterPods(s.claim.value, s.pods))
  {
  }

  lemma ResetsWhenBusy(ttl: int, s: State)
    requires s.claim.Some? && s.phase == Resetting(s.claim.value)
    ensures var t := AfterListing(ttl, s);
            t.node == s.node && t.claim.Some? && t.claim.value.reset == Format(s.now)
  {
  }

  lemma DecidesWhenEmpty(ttl: int, s: State)
    requires s.claim.Some? && s.phase == Empty(s.claim.value, s.pods)
    requires s.node.Some? && HasKey(s.node.value.taints)
    ensures var t := AfterListing(ttl, s);
            && t.node == s.node
            && (t.claim.None? <==> !Wanted(s.pods, s.node.value))
            && (t.claim.Some? ==> t.claim.value.reset == Format(s.now))
  {
    var seen := s.(phase := AfterNode(s.claim.value, s.pods, s.node.value));
    assert Apply(ttl, Apply(ttl, Apply(ttl, s, ReadClock), PatchReset), GetNode) == seen;
  }

  /**
   * An interrupted decommission resumes: when the taint is on and the delete failed, the next
   * undisturbed reconcile deletes the claim exactly when no live non-DaemonSet pod runs on the node
   * and no pending pod matches it, and otherwise resets the TTL, which on an empty node takes a
   * pending pod that tolerates the taint. Either way the taints stay.
   */
  lemma InterruptedDecommissionResumes(ttl: int, s: State, creation: int)
    requires Inv(ttl, s, creation) && s.phase.Idle?
    requires s.claim.Some? && !s.claim.value.deleting && s.claim.value.nodeName != ""
    requires s.node.Some? && HasKey(s.node.value.taints) && s.now - TtlStart(s.claim.value) >= ttl
    ensures var t := QuietReconcile(ttl, s);
            && t.node == s.node
            && (t.claim.None? <==> !Busy(s.pods, s.claim.value.nodeName) && !Wanted(s.pods, s.node.value))
            && (t.claim.Some? ==> t.claim.value.reset == Format(s.now))
            && (t.claim.Some? && !Busy(s.pods, s.claim.value.nodeName) ==>
                  exists p :: p in s.pods && MayStillCome(p))
  {
    ListsWhenExpired(ttl, s);
    var listed := s.(phase := AfterPods(s.claim.value, s.pods));
    if Busy(s.pods, s.claim.value.nodeName) {
      ResetsWhenBusy(ttl, listed);
    } else {
      DecidesWhenEmpty(ttl, listed);
    }
    if !Busy(s.pods, s.claim.value.nodeName) && Wanted(s.pods, s.node.value) {
      OnlyToleratingPodsReset(s.claim.value, s.pods, s.node.value);
    }
  }
}
