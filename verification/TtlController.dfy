/**
 * The TTL controller's Reconcile over a cluster that keeps changing. Every API call lets the rest of
 * the world move first, and may fail, with or without having reached the server. The cluster records
 * the run of TtlRuns it goes through.
 */
module TtlController {
  import opened Prelude
  import opened PodMatching
  import opened TtlRuns

  /** The steps of a run that are the controller's own, in order. */
  ghost function Own(steps: seq<Step>): seq<Step> {
    if steps == [] then []
    else
      var last := steps[|steps| - 1];
      Own(steps[..|steps| - 1]) + (if External(last) then [] else [last])
  }

  lemma OwnSnoc(steps: seq<Step>, last: Step)
    ensures Own(steps + [last]) == Own(steps) + (if External(last) then [] else [last])
  {
    assert (steps + [last])[..|steps|] == steps;
  }

  /** What others do not touch: how far the reconcile is, and all of the claim that its TTL depends on. */
  ghost predicate OnlyOthersMoved(s: State, t: State) {
    && t.phase == s.phase && t.lastReset == s.lastReset && s.now <= t.now
    && t.claim.Some? == s.claim.Some?
    && (s.claim.Some? ==>
          t.claim.value.creation == s.claim.value.creation && t.claim.value.reset == s.claim.value.reset)
  }

  lemma ExternalMovesOthersOnly(ttl: int, s: State, step: Step)
    requires External(step)
    ensures OnlyOthersMoved(s, Apply(ttl, s, step))
  {
  }

  class Cluster {
    const ttl: int
    var state: State
    ghost const start: State
    ghost var run: seq<Step>

    constructor (ttl: int, state: State)
      ensures Valid() && this.ttl == ttl && this.state == state && this.start == state && run == []
    {
      this.ttl, this.state, this.start, this.run := ttl, state, state, [];
    }

    ghost predicate Valid()
      reads this
    {
      state == Exec(ttl, start, run)
    }

    /** One step of the run, the controller's or anybody's. */
    method Take(step: Step)
      requires Valid()
      modifies this
      ensures Valid() && state == Apply(ttl, old(state), step)
      ensures Own(run) == Own(old(run)) + (if External(step) then [] else [step])
    {
      ExecSnoc(ttl, start, run, step);
      OwnSnoc(run, step);
      state := Apply(ttl, state, step);
      run := run + [step];
    }

    /** The rest of the world moves. */
    method Interfere()
      requires Valid()
      modifies this
      ensures Valid() && Own(run) == Own(old(run)) && OnlyOthersMoved(old(state), state)
    {
      var moves: int := *;
      while moves > 0
        invariant Valid() && Own(run) == Own(old(run)) && OnlyOthersMoved(old(state), state)
      {
        var step: Step := *;
        if External(step) {
          ExternalMovesOthersOnly(ttl, state, step);
          Take(step);
        }
        moves := moves - 1;
      }
    }

    /** Get the NodeClaim: `None` when it does not exist. */
    method GetClaim() returns (ok: bool, found: Option<Claim>)
      requires Valid() && state.phase.Idle?
      modifies this
      ensures Valid() && old(state.now) <= state.now
      ensures if ok && found.Some? then
                && Own(run) == Own(old(run)) + [Step.GetClaim] && state.claim == found
                && state.phase == (if found.value.deleting || found.value.nodeName == "" then Idle
                                   else Read(found.value))
              else
                Own(run) == Own(old(run)) && state.phase.Idle? && state.claim == found
    {
      Interfere();
      ok := *;
      found := state.claim;
      if ok && found.Some? {
        Take(Step.GetClaim);
      }
    }

    /** time.Since(start), where the reconcile compares it with the TTL. */
    method Since(begin: int) returns (elapsed: int)
      requires Valid() && state.phase.Read? && begin == TtlStart(state.phase.claim)
      requires state.claim == Some(state.phase.claim)
      modifies this
      ensures Valid() && Own(run) == Own(old(run)) + [CheckTtl]
      ensures state.claim.Some? && TtlStart(state.claim.value) == begin && elapsed == state.now - begin
              && old(state.now) <= state.now
      ensures state.phase == (if elapsed < ttl then Idle else Expired(old(state.phase.claim)))
    {
      Interfere();
      elapsed := state.now - begin;
      Take(CheckTtl);
    }

    method ListPods() returns (ok: bool, pods: seq<Pod>)
      requires Valid() && state.phase.Expired?
      modifies this
      ensures Valid() && old(state.now) <= state.now
      ensures if ok then
                Own(run) == Own(old(run)) + [Step.ListPods] && state.phase == AfterPods(old(state.phase.claim), pods)
              else
                Own(run) == Own(old(run))
    {
      Interfere();
      pods := state.pods;
      ok := *;
      if ok {
        Take(Step.ListPods);
      }
    }

    method GetNode() returns (ok: bool, node: Node)
      requires Valid() && state.phase.Empty?
      modifies this
      ensures Valid() && old(state.now) <= state.now
      ensures if ok then
                && Own(run) == Own(old(run)) + [Step.GetNode]
                && state.phase == AfterNode(old(state.phase.claim), old(state.phase.pods), node)
              else
                Own(run) == Own(old(run))
    {
      Interfere();
      ok := *;
      ok := ok && state.node.Some?;
      node := if state.node.Some? then state.node.value else Node(map[], []);
      if ok {
        Take(Step.GetNode);
      }
    }

    /** time.Now(), where the reconcile stamps the reset. */
    method Now() returns (now: int)
      requires Valid() && state.phase.Resetting?
      modifies this
      ensures Valid() && Own(run) == Own(old(run)) + [ReadClock]
      ensures state.phase == Marking(old(state.phase.claim), now) && old(state.now) <= now
    {
      Interfere();
      now := state.now;
      Take(ReadClock);
    }

    /** Patch the reset annotation. Only the mark the reconcile stamped can be written. */
    method PatchReset(mark: ResetMark) returns (ok: bool)
      requires Valid() && state.phase.Marking? && mark == Format(state.phase.now)
      modifies this
      ensures Valid()
      ensures Own(run) == Own(old(run)) + [Step.PatchReset] || (!ok && Own(run) == Own(old(run)))
      ensures ok ==> && state.claim.Some? && state.claim.value.reset == mark
                     && state.lastReset == Some(old(state.phase.now))
    {
      Interfere();
      var reached: bool := *;
      ok := *;
      ok := ok && reached && state.claim.Some?;
      if reached && state.claim.Some? {
        Take(Step.PatchReset);
      }
    }

    /** Patch the node's taint list; `taints` replaces whatever list the node has by then. */
    method PatchTaints(taints: seq<Taint>) returns (ok: bool)
      requires Valid() && state.phase.Tainting? && !HasKey(state.phase.node.taints)
      requires taints == WithDecommissioning(state.phase.node.taints)
      modifies this
      ensures Valid()
      ensures Own(run) == Own(old(run)) + [PatchTaint] || (!ok && Own(run) == Own(old(run)))
      ensures ok ==> state.phase == Deleting(old(state.phase.claim), old(state.phase.pods), old(state.phase.node))
    {
      Interfere();
      var reached: bool := *;
      ok := *;
      ok := ok && reached && state.node.Some?;
      if reached && state.node.Some? {
        Take(PatchTaint);
      }
    }

    method DeleteClaim() returns (ok: bool)
      requires Valid() && state.phase.Deleting?
      modifies this
      ensures Valid()
      ensures Own(run) == Own(old(run)) + [Step.DeleteClaim] || (!ok && Own(run) == Own(old(run)))
      ensures ok ==> state.claim.None?
    {
      Interfere();
      var reached: bool := *;
      ok := *;
      ok := ok && reached && state.claim.Some?;
      if reached && state.claim.Some? {
        Take(Step.DeleteClaim);
      }
    }
  }

  /**
   * How a reconcile ends: the result `{}` without and with a deletion, `RequeueAfter` the remaining
   * or the whole TTL, or an error.
   */
  datatype Outcome = Skipped | Decommissioned | WaitFor(left: int) | ResetDone | ReturnError

  /** The complete paths through Reconcile. */
  ghost predicate Path(o: Outcome, own: seq<Step>) {
    match o
    case Skipped => own == [] || own == [GetClaim]
    case WaitFor(_) => own == [GetClaim, CheckTtl]
    case ResetDone => own == [GetClaim, CheckTtl, ListPods, ReadClock, PatchReset]
                      || own == [GetClaim, CheckTtl, ListPods, GetNode, ReadClock, PatchReset]
    case Decommissioned => own == [GetClaim, CheckTtl, ListPods, GetNode, PatchTaint, DeleteClaim]
    case ReturnError => own <= [GetClaim, CheckTtl, ListPods, ReadClock, PatchReset]
                        || own <= [GetClaim, CheckTtl, ListPods, GetNode, ReadClock, PatchReset]
                        || own <= [GetClaim, CheckTtl, ListPods, GetNode, PatchTaint, DeleteClaim]
  }

  /** What the outcome tells about the cluster as it is left, after a reconcile that began at `began`. */
  ghost predicate Leaves(ttl: int, o: Outcome, began: int, s: State) {
    match o
    case Skipped => s.claim.None? || s.claim.value.deleting || s.claim.value.nodeName == ""
    case Decommissioned => s.claim.None?
    case WaitFor(left) => s.claim.Some? && 0 < left == ttl - (s.now - TtlStart(s.claim.value))
    case ResetDone => s.claim.Some? && s.lastReset.Some? && began <= s.lastReset.value
                      && s.claim.value.reset == Format(s.lastReset.value)
    case _ => true
  }

  /** resetTTL. The clock is read first; the patch may fail on the way. */
  method ResetTtl(cluster: Cluster) returns (o: Outcome, ghost tail: seq<Step>)
    requires cluster.Valid() && cluster.state.phase.Resetting?
    modifies cluster
    ensures cluster.Valid() && Own(cluster.run) == Own(old(cluster.run)) + tail
    ensures (o == ResetDone && tail == [ReadClock, PatchReset])
            || (o == ReturnError && (tail == [ReadClock] || tail == [ReadClock, PatchReset]))
    ensures Leaves(cluster.ttl, o, old(cluster.state.now), cluster.state)
  {
    var now := cluster.Now();
    var mark := Format(now);
    ghost var clocked := Own(cluster.run);
    var ok := cluster.PatchReset(mark);
    tail := if Own(cluster.run) == clocked then [ReadClock] else [ReadClock, PatchReset];
    o := if ok then ResetDone else ReturnError;
  }

  /** taintNode, on the copy of the node that was read. */
  method TaintNode(cluster: Cluster, node: Node) returns (ok: bool)
    requires cluster.Valid() && cluster.state.phase.Tainting? && node == cluster.state.phase.node
    modifies cluster
    ensures cluster.Valid()
    ensures Own(cluster.run) == Own(old(cluster.run)) + [PatchTaint]
            || (!ok && Own(cluster.run) == Own(old(cluster.run)))
    ensures ok ==> cluster.state.phase.Deleting?
  {
    var i := 0;
    while i < |node.taints|
      invariant 0 <= i <= |node.taints|
      invariant forall j :: 0 <= j < i ==> node.taints[j].key != TAINT_KEY
      invariant cluster.Valid() && cluster.run == old(cluster.run) && cluster.state == old(cluster.state)
    {
      if node.taints[i].key == TAINT_KEY {
        cluster.Take(PatchTaint);
        return true;
      }
      i := i + 1;
    }
    ok := cluster.PatchTaints(node.taints + [DECOMMISSIONING]);
  }

  /**
   * Reconcile. Whatever else happens meanwhile, the cluster goes through a run of TtlRuns, so every
   * theorem about runs holds of this code; and the outcome tells which of the controller's own
   * steps the run contains, in which order, and how they leave the cluster.
   */
  method Reconcile(cluster: Cluster) returns (o: Outcome, ghost own: seq<Step>)
    requires cluster.Valid() && cluster.state.phase.Idle?
    modifies cluster
    ensures cluster.Valid() && cluster.state.phase.Idle?
    ensures Own(cluster.run) == Own(old(cluster.run)) + own + [Fail] && Path(o, own)
    ensures Leaves(cluster.ttl, o, old(cluster.state.now), cluster.state)
  {
    o, own := ReconcileClaim(cluster);
    cluster.Take(Fail);
  }

  /** The body of Reconcile; what it has in hand when it returns is then dropped. */
  method ReconcileClaim(cluster: Cluster) returns (o: Outcome, ghost own: seq<Step>)
    requires cluster.Valid() && cluster.state.phase.Idle?
    modifies cluster
    ensures cluster.Valid() && Own(cluster.run) == Own(old(cluster.run)) + own && Path(o, own)
    ensures Leaves(cluster.ttl, o, old(cluster.state.now), cluster.state)
  {
    var ok, found := cluster.GetClaim();
    if !ok || found.None? {
      return if ok then Skipped else ReturnError, [];
    }
    var nc := found.value;
    if nc.deleting || nc.nodeName == "" {
      return Skipped, [GetClaim];
    }
    var begin := TtlStart(nc);
    var elapsed := cluster.Since(begin);
    if elapsed < cluster.ttl {
      return WaitFor(cluster.ttl - elapsed), [GetClaim, CheckTtl];
    }
    ghost var tail;
    o, tail := ReconcileExpired(cluster, nc);
    own := [GetClaim, CheckTtl] + tail;
  }

  /** The part after the TTL has expired. */
  method ReconcileExpired(cluster: Cluster, nc: Claim) returns (o: Outcome, ghost tail: seq<Step>)
    requires cluster.Valid() && cluster.state.phase == Expired(nc)
    modifies cluster
    ensures cluster.Valid() && !o.WaitFor? && Own(cluster.run) == Own(old(cluster.run)) + tail
    ensures Path(o, [GetClaim, CheckTtl] + tail) && Leaves(cluster.ttl, o, old(cluster.state.now), cluster.state)
  {
    var ok, pods := cluster.ListPods();
    if !ok {
      return ReturnError, [];
    }
    var busy := HasNonDSPods(pods, nc.nodeName);
    if busy {
      o, tail := ResetTtl(cluster);
    } else {
      o, tail := ReconcileEmpty(cluster, nc, pods);
    }
    assert [GetClaim, CheckTtl] + ([ListPods] + tail) == [GetClaim, CheckTtl, ListPods] + tail;
    tail := [ListPods] + tail;
  }

  /** The part after the node turned out to be empty. */
  method ReconcileEmpty(cluster: Cluster, nc: Claim, pods: seq<Pod>) returns (o: Outcome, ghost tail: seq<Step>)
    requires cluster.Valid() && cluster.state.phase == Empty(nc, pods)
    modifies cluster
    ensures cluster.Valid() && !o.WaitFor? && Own(cluster.run) == Own(old(cluster.run)) + tail
    ensures Path(o, [GetClaim, CheckTtl, ListPods] + tail)
            && Leaves(cluster.ttl, o, old(cluster.state.now), cluster.state)
  {
    var ok, node := cluster.GetNode();
    if !ok {
      return ReturnError, [];
    }
    var wanted := HasMatchingPendingPod(pods, node);
    if wanted {
      o, tail := ResetTtl(cluster);
    } else {
      o, tail := Decommission(cluster, node);
    }
    assert [GetClaim, CheckTtl, ListPods] + ([GetNode] + tail) == [GetClaim, CheckTtl, ListPods, GetNode] + tail;
    tail := [GetNode] + tail;
  }

  /** Taint, then delete. */
  method Decommission(cluster: Cluster, node: Node) returns (o: Outcome, ghost tail: seq<Step>)
    requires cluster.Valid() && cluster.state.phase.Tainting? && node == cluster.state.phase.node
    modifies cluster
    ensures cluster.Valid() && Own(cluster.run) == Own(old(cluster.run)) + tail
    ensures (o == Decommissioned && tail == [PatchTaint, DeleteClaim])
            || (o == ReturnError && tail <= [PatchTaint, DeleteClaim])
    ensures Leaves(cluster.ttl, o, old(cluster.state.now), cluster.state)
  {
    var ok := TaintNode(cluster, node);
    if !ok {
      tail := if Own(cluster.run) == Own(old(cluster.run)) then [] else [PatchTaint];
      return ReturnError, tail;
    }
    ghost var tainted := Own(cluster.run);
    ok := cluster.DeleteClaim();
    tail := if Own(cluster.run) == tainted then [PatchTaint] else [PatchTaint, DeleteClaim];
    o := if ok then Decommissioned else ReturnError;
  }
}
