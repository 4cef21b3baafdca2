/**
 * The TTL controller's questions about pods, taints and affinity: each loop of the source against
 * the statement it decides, and those statements against Kubernetes' scheduling rules.
 */
module PodMatching {
  import opened Prelude
  import opened GoStrings

  datatype Operator = In | NotIn | Exists | DoesNotExist | Gt | Lt

  datatype Expression = Expression(key: string, op: Operator, values: seq<string>)

  /** A node selector term; `fields` says whether it also has matchFields. */
  datatype Term = Term(expressions: seq<Expression>, fields: bool)

  datatype TolerationOp = DefaultOp | Equal | ExistsOp | OtherOp

  datatype Toleration = Toleration(key: string, op: TolerationOp, value: string, effect: string)

  datatype Status = True | False | Unknown

  datatype Condition = Condition(kind: string, status: Status, reason: string)

  /** `required` is None when any pointer on the way to the required node affinity is nil. */
  datatype Pod = Pod(
    nodeName: string,
    ownerKinds: seq<string>,
    deleting: bool,
    phase: string,
    conditions: seq<Condition>,
    nodeSelector: map<string, string>,
    required: Option<seq<Term>>,
    tolerations: seq<Toleration>)

  datatype Node = Node(labels: map<string, string>, taints: seq<Taint>)

  /* ----------------------------------------------------------------------- occupancy */

  predicate DaemonSetPod(p: Pod) {
    "DaemonSet" in p.ownerKinds
  }

  /** A live pod that is not a DaemonSet's runs on the node. */
  predicate Busy(pods: seq<Pod>, nodeName: string) {
    exists p :: p in pods && p.nodeName == nodeName && !DaemonSetPod(p) && !p.deleting
  }

  method IsDaemonSet(p: Pod) returns (b: bool)
    ensures b <==> DaemonSetPod(p)
  {
    var i := 0;
    while i < |p.ownerKinds|
      invariant 0 <= i <= |p.ownerKinds|
      invariant forall j :: 0 <= j < i ==> p.ownerKinds[j] != "DaemonSet"
    {
      if p.ownerKinds[i] == "DaemonSet" {
        return true;
      }
      i := i + 1;
    }
    b := false;
  }

  method HasNonDSPods(pods: seq<Pod>, nodeName: string) returns (b: bool)
    ensures b <==> exists i :: && 0 <= i < |pods| && pods[i].nodeName == nodeName
                               && "DaemonSet" !in pods[i].ownerKinds && !pods[i].deleting
    ensures b <==> Busy(pods, nodeName)
  {
    var i := 0;
    while i < |pods|
      invariant 0 <= i <= |pods|
      invariant forall j :: 0 <= j < i ==>
                  !(pods[j].nodeName == nodeName && !DaemonSetPod(pods[j]) && !pods[j].deleting)
    {
      var daemon := IsDaemonSet(pods[i]);
      if pods[i].nodeName == nodeName && !daemon && !pods[i].deleting {
        return true;
      }
      i := i + 1;
    }
    b := false;
  }

  /* --------------------------------------------------------------------- tolerations */

  predicate Hard(t: Taint) {
    t.effect == "NoSchedule" || t.effect == "NoExecute"
  }

  /** What the source accepts as a toleration covering a taint. */
  predicate Covers(t: Toleration, taint: Taint) {
    && (t.key == "" || t.key == taint.key)
    && (t.effect == "" || t.effect == taint.effect)
    && (t.op == ExistsOp || t.value == taint.value)
  }

  /** Kubernetes' rule: the empty operator means Equal, and an unknown one never matches. */
  predicate Tolerates(t: Toleration, taint: Taint) {
    && (t.effect == "" || t.effect == taint.effect)
    && (t.key == "" || t.key == taint.key)
    && match t.op
       case ExistsOp => true
       case OtherOp => false
       case _ => t.value == taint.value
  }

  /** The source's rule is Kubernetes' exactly for the operators Kubernetes knows. */
  lemma CoversIsToleratesExactly(t: Toleration)
    ensures (forall taint :: Covers(t, taint) <==> Tolerates(t, taint)) <==> t.op != OtherOp
  {
    if t.op == OtherOp {
      var taint := Taint(t.key, t.value, t.effect);
      assert Covers(t, taint) && !Tolerates(t, taint);
    }
  }

  predicate Tolerated(taint: Taint, tolerations: seq<Toleration>) {
    exists t :: t in tolerations && Covers(t, taint)
  }

  predicate ToleratesNode(p: Pod, taints: seq<Taint>) {
    forall taint :: taint in taints && Hard(taint) ==> Tolerated(taint, p.tolerations)
  }

  method TolerationMatches(taint: Taint, tolerations: seq<Toleration>) returns (b: bool)
    ensures b <==> exists i :: && 0 <= i < |tolerations|
                               && (tolerations[i].key == "" || tolerations[i].key == taint.key)
                               && (tolerations[i].effect == "" || tolerations[i].effect == taint.effect)
                               && (tolerations[i].op == ExistsOp || tolerations[i].value == taint.value)
    ensures b <==> Tolerated(taint, tolerations)
  {
    var i := 0;
    while i < |tolerations|
      invariant 0 <= i <= |tolerations|
      invariant forall j :: 0 <= j < i ==> !Covers(tolerations[j], taint)
    {
      var t := tolerations[i];
      assert t in tolerations;
      i := i + 1;
      if t.key != "" && t.key != taint.key {
        continue;
      }
      if t.effect != "" && t.effect != taint.effect {
        continue;
      }
      if t.op == ExistsOp {
        return true;
      }
      if t.value == taint.value {
        return true;
      }
    }
    b := false;
  }

  method PodToleratesNodeTaints(p: Pod, taints: seq<Taint>) returns (b: bool)
    ensures b <==> forall i :: 0 <= i < |taints| && taints[i].effect in {"NoSchedule", "NoExecute"} ==>
                     Tolerated(taints[i], p.tolerations)
    ensures b <==> ToleratesNode(p, taints)
  {
    var i := 0;
    while i < |taints|
      invariant 0 <= i <= |taints|
      invariant forall j :: 0 <= j < i && Hard(taints[j]) ==> Tolerated(taints[j], p.tolerations)
    {
      var taint := taints[i];
      i := i + 1;
      if taint.effect != "NoSchedule" && taint.effect != "NoExecute" {
        continue;
      }
      var matched := TolerationMatches(taint, p.tolerations);
      if !matched {
        return false;
      }
    }
    b := true;
  }

  /* ------------------------------------------------------------------- instance types */

  predicate On(e: Expression) {
    e.key == INSTANCE_TYPE
  }

  predicate Mentions(t: Term) {
    exists e :: e in t.expressions && On(e)
  }

  /** A term the source counts as accepting the plan. */
  predicate Accepts(t: Term, plan: string) {
    && (exists e :: e in t.expressions && On(e) && (e.op == In || e.op == Exists))
    && (forall e :: e in t.expressions && On(e) && e.op == In ==> plan in e.values)
  }

  /** What podFitsInstanceType computes. */
  predicate Fits(p: Pod, plan: string) {
    && (INSTANCE_TYPE in p.nodeSelector ==> p.nodeSelector[INSTANCE_TYPE] == plan)
    && (p.required.Some? ==>
          || (forall t :: t in p.required.value ==> !Mentions(t))
          || (exists t :: t in p.required.value && Accepts(t, plan)))
  }

  /** One term, as the first loop sees it: `found`, `failed` and the early break. */
  method ScanTerm(t: Term, plan: string) returns (found: bool, failed: bool)
    ensures found && !failed <==> Accepts(t, plan)
    ensures !found ==> !failed && forall e :: e in t.expressions && On(e) ==> e.op != In && e.op != Exists
  {
    found, failed := false, false;
    var i := 0;
    while i < |t.expressions|
      invariant 0 <= i <= |t.expressions|
      invariant !failed
      invariant found <==> exists j :: && 0 <= j < i && On(t.expressions[j])
                                       && (t.expressions[j].op == In || t.expressions[j].op == Exists)
      invariant forall j :: 0 <= j < i && On(t.expressions[j]) && t.expressions[j].op == In ==>
                  plan in t.expressions[j].values
    {
      var e := t.expressions[i];
      if e.key == INSTANCE_TYPE && (e.op == In || e.op == Exists) {
        found := true;
        if e.op == In && plan !in e.values {
          failed := true;
          assert e in t.expressions;
          break;
        }
      }
      i := i + 1;
    }
    if !failed && found {
      ghost var j :| 0 <= j < i && On(t.expressions[j]) && (t.expressions[j].op == In || t.expressions[j].op == Exists);
      assert t.expressions[j] in t.expressions;
    }
  }

  /** The second pass: is the instance type mentioned anywhere at all? */
  method AnyMention(terms: seq<Term>) returns (hasConstrainingTerm: bool)
    ensures hasConstrainingTerm <==> exists t :: t in terms && Mentions(t)
  {
    hasConstrainingTerm := false;
    var i := 0;
    while i < |terms|
      invariant 0 <= i <= |terms|
      invariant hasConstrainingTerm <==> exists j :: 0 <= j < i && Mentions(terms[j])
    {
      var k := 0;
      ghost var before := hasConstrainingTerm;
      while k < |terms[i].expressions|
        invariant 0 <= k <= |terms[i].expressions|
        invariant hasConstrainingTerm <==> before || exists l :: 0 <= l < k && On(terms[i].expressions[l])
      {
        if terms[i].expressions[k].key == INSTANCE_TYPE {
          hasConstrainingTerm := true;
        }
        k := k + 1;
      }
      assert Mentions(terms[i]) <==> exists l :: 0 <= l < k && On(terms[i].expressions[l]);
      i := i + 1;
    }
    if hasConstrainingTerm {
      ghost var j :| 0 <= j < i && Mentions(terms[j]);
      assert terms[j] in terms;
    }
  }

  method PodFitsInstanceType(p: Pod, plan: string) returns (b: bool)
    ensures b <==> && (INSTANCE_TYPE in p.nodeSelector ==> p.nodeSelector[INSTANCE_TYPE] == plan)
                   && (p.required.Some? && (exists t :: t in p.required.value && Mentions(t)) ==>
                         exists t :: t in p.required.value && Accepts(t, plan))
    ensures b <==> Fits(p, plan)
  {
    if INSTANCE_TYPE in p.nodeSelector && p.nodeSelector[INSTANCE_TYPE] != plan {
      return false;
    }
    if p.required.Some? {
      var terms := p.required.value;
      var i := 0;
      while i < |terms|
        invariant 0 <= i <= |terms|
        invariant forall j :: 0 <= j < i ==> !Accepts(terms[j], plan)
      {
        var found, failed := ScanTerm(terms[i], plan);
        if !found {
          i := i + 1;
          continue;
        }
        if !failed {
          assert terms[i] in terms;
          return true;
        }
        i := i + 1;
      }
      var hasConstrainingTerm := AnyMention(terms);
      if hasConstrainingTerm {
        return false;
      }
    }
    b := true;
  }

  /* --------------------------------------- against the Kubernetes meaning of the terms */

  /** Kubernetes reads both sides of Gt and Lt as integers; anything else does not match. */
  predicate Compares(e: Expression, plan: string) {
    && |e.values| == 1 && ParseInt(plan).Some? && ParseInt(e.values[0]).Some?
    && if e.op == Gt then ParseInt(plan).value > ParseInt(e.values[0]).value
       else ParseInt(plan).value < ParseInt(e.values[0]).value
  }

  /** Kubernetes' meaning of an expression on the instance type, for a node's label, which may be missing. */
  predicate Holds(e: Expression, label_: Option<string>) {
    match e.op
    case In => label_.Some? && label_.value in e.values
    case NotIn => label_.None? || label_.value !in e.values
    case Exists => label_.Some?
    case DoesNotExist => label_.None?
    case _ => label_.Some? && Compares(e, label_.value)
  }

  predicate NonEmpty(t: Term) {
    t.expressions != [] || t.fields
  }

  /** A term matches when it is not empty and all its expressions do; projected to the instance type. */
  ghost predicate TermMatches(t: Term, label_: Option<string>) {
    && NonEmpty(t)
    && forall e :: e in t.expressions && On(e) ==> Holds(e, label_)
  }

  /** Kubernetes: the terms of a required affinity are alternatives. */
  ghost predicate AffinityAllows(terms: seq<Term>, label_: Option<string>) {
    exists t :: t in terms && TermMatches(t, label_)
  }

  /** An expression the source never looks at. */
  predicate Unread(e: Expression) {
    e.op != In && e.op != Exists
  }

  /**
   * The source accepts the term, past an expression it should not have passed: one with an operator
   * it does not read, or an Exists on a node without the label.
   */
  ghost predicate Ignores(t: Term, label_: Option<string>) {
    && Accepts(t, label_.GetOr(""))
    && exists e :: e in t.expressions && On(e) && !Holds(e, label_)
  }

  /** The source skips the term, for want of an expression it reads, though it allows the node. */
  ghost predicate Skips(t: Term, label_: Option<string>) {
    && NonEmpty(t)
    && forall e :: e in t.expressions && On(e) ==> Unread(e) && Holds(e, label_)
  }

  /** A term matches when the source accepts it and passed over nothing, or when it wrongly skips it. */
  lemma TermMatchesExactly(t: Term, label_: Option<string>)
    ensures TermMatches(t, label_)
       <==> (Accepts(t, label_.GetOr("")) && !Ignores(t, label_)) || Skips(t, label_)
  {
    if TermMatches(t, label_) && !Skips(t, label_) {
      var e :| e in t.expressions && On(e) && !Unread(e);
      assert label_.Some?;
    }
  }

  lemma AffinityByTerm(terms: seq<Term>, label_: Option<string>)
    ensures forall t :: t in terms ==>
              (TermMatches(t, label_)
               <==> (Accepts(t, label_.GetOr("")) && !Ignores(t, label_)) || Skips(t, label_))
  {
    forall t | t in terms
      ensures TermMatches(t, label_)
         <==> (Accepts(t, label_.GetOr("")) && !Ignores(t, label_)) || Skips(t, label_)
    {
      TermMatchesExactly(t, label_);
    }
  }

  /** Kubernetes: the pod's node selector and its required affinity, projected to the instance type. */
  ghost predicate KubernetesFits(p: Pod, label_: Option<string>) {
    && (INSTANCE_TYPE in p.nodeSelector ==> label_ == Some(p.nodeSelector[INSTANCE_TYPE]))
    && (p.required.Some? ==> AffinityAllows(p.required.value, label_))
  }

  /**
   * For pods that name no instance type in their node selector, any terms with any operators, and any
   * node: the source's answer is Kubernetes' exactly when
   * - some term is accepted by the source, and one is accepted past nothing or wrongly skipped; or
   * - none is accepted, and either some term mentions the instance type and none is wrongly skipped
   *   (both refuse) or none mentions it and there is a non-empty one (both allow).
   */
  lemma AffinityAgreesExactly(p: Pod, terms: seq<Term>, label_: Option<string>)
    requires INSTANCE_TYPE !in p.nodeSelector && p.required == Some(terms)
    ensures (Fits(p, label_.GetOr("")) <==> KubernetesFits(p, label_))
       <==> if exists t :: t in terms && Accepts(t, label_.GetOr("")) then
              exists t :: t in terms && ((Accepts(t, label_.GetOr("")) && !Ignores(t, label_)) || Skips(t, label_))
            else
              (exists t :: t in terms && Mentions(t)) <==> !(exists t :: t in terms && Skips(t, label_))
  {
    AffinityByTerm(terms, label_);
  }

  /** A node selector that asks for the empty plan, on a node without the label, is taken to agree. */
  predicate SelectsMissingLabel(p: Pod, label_: Option<string>) {
    INSTANCE_TYPE in p.nodeSelector && p.nodeSelector[INSTANCE_TYPE] == "" && label_.None?
  }

  /**
   * For any pod and any node, the source allows what Kubernetes refuses exactly when the selector agrees
   * and, in the required affinity, it accepts some term, but each only past an expression it ignored,
   * and skips none that would do; or all terms are empty; or the selector only seems to agree.
   */
  lemma WronglyAllowedExactly(p: Pod, label_: Option<string>)
    ensures Fits(p, label_.GetOr("")) && !KubernetesFits(p, label_)
       <==> && (INSTANCE_TYPE in p.nodeSelector ==> p.nodeSelector[INSTANCE_TYPE] == label_.GetOr(""))
            && if SelectsMissingLabel(p, label_) then
                 p.required.Some? && (exists t :: t in p.required.value && Mentions(t)) ==>
                   exists t :: t in p.required.value && Accepts(t, "")
               else
                 && p.required.Some?
                 && (|| (&& (exists t :: t in p.required.value && Accepts(t, label_.GetOr("")))
                         && forall t :: t in p.required.value ==>
                              !Skips(t, label_) && (Accepts(t, label_.GetOr("")) ==> Ignores(t, label_)))
                     || forall t :: t in p.required.value ==> !Mentions(t) && !NonEmpty(t))
  {
    if p.required.Some? {
      AffinityByTerm(p.required.value, label_);
    }
  }

  /**
   * And it refuses what Kubernetes allows exactly when the selector agrees and it accepts no term, for
   * want of reading one it skips, while some term mentions the instance type.
   */
  lemma WronglyRefusedExactly(p: Pod, label_: Option<string>)
    ensures !Fits(p, label_.GetOr("")) && KubernetesFits(p, label_)
       <==> && (INSTANCE_TYPE in p.nodeSelector ==> label_ == Some(p.nodeSelector[INSTANCE_TYPE]))
            && p.required.Some? && (forall t :: t in p.required.value ==> !Accepts(t, label_.GetOr("")))
            && (exists t :: t in p.required.value && Mentions(t))
            && (exists t :: t in p.required.value && Skips(t, label_))
  {
    if p.required.Some? {
      AffinityByTerm(p.required.value, label_);
    }
  }

  /** On the instance type, the terms only use In and Exists. */
  ghost predicate OnlyInAndExists(terms: seq<Term>) {
    forall t, e :: t in terms && e in t.expressions && On(e) ==> !Unread(e)
  }

  /** In particular they agree when every term is non-empty and all of them, or none, mention it. */
  lemma UniformAffinityAgrees(p: Pod, plan: string)
    requires p.required.Some? && OnlyInAndExists(p.required.value) && p.required.value != []
    requires forall t :: t in p.required.value ==> NonEmpty(t)
    requires (forall t :: t in p.required.value ==> Mentions(t)) || (forall t :: t in p.required.value ==> !Mentions(t))
    ensures Fits(p, plan) <==> KubernetesFits(p, Some(plan))
  {
    var terms := p.required.value;
    forall t | t in terms
      ensures TermMatches(t, Some(plan)) <==> Accepts(t, plan) || !Mentions(t)
    {
      TermMatchesExactly(t, Some(plan));
      if Mentions(t) {
        var e :| e in t.expressions && On(e);
        assert !Unread(e);
      }
    }
    assert terms[0] in terms;
  }

  /** An exclusion alone is read as a refusal of everything: a lone NotIn term never fits. */
  lemma NotInNeverFits(p: Pod, t: Term, plan: string)
    requires p.required == Some([t]) && Mentions(t) && forall e :: e in t.expressions && On(e) ==> e.op == NotIn
    ensures !Fits(p, plan)
    ensures TermMatches(t, Some(plan)) <==> forall e :: e in t.expressions && On(e) ==> plan !in e.values
  {
    assert t in [t];
  }

  /** Next to an Exists, an exclusion is not read at all: the excluded plan is accepted. */
  lemma NotInIsIgnored(p: Pod, plan: string)
    requires INSTANCE_TYPE !in p.nodeSelector
    requires p.required == Some([Term([Expression(INSTANCE_TYPE, Exists, []),
                                       Expression(INSTANCE_TYPE, NotIn, [plan])], false)])
    ensures Fits(p, plan) && !KubernetesFits(p, Some(plan))
  {
    var exclusion := Expression(INSTANCE_TYPE, NotIn, [plan]);
    var t := Term([Expression(INSTANCE_TYPE, Exists, []), exclusion], false);
    assert t.expressions[0] in t.expressions && t.expressions[1] in t.expressions && t in [t];
    assert On(exclusion) && plan in [plan] && !Holds(exclusion, Some(plan));
  }

  /* ---------------------------------------------------------------------- pending pods */

  /** What isMatchingPending computes. */
  predicate Matches(p: Pod, plan: string, taints: seq<Taint>) {
    && p.phase == "Pending" && p.nodeName == ""
    && (forall c :: c in p.conditions && c.kind == "PodScheduled" ==> c.status != True && c.reason == "Unschedulable")
    && Fits(p, plan)
    && ToleratesNode(p, taints)
  }

  predicate Wanted(pods: seq<Pod>, node: Node) {
    exists p :: p in pods && Matches(p, Lookup(node.labels, INSTANCE_TYPE), node.taints)
  }

  method IsMatchingPending(p: Pod, plan: string, taints: seq<Taint>) returns (b: bool)
    ensures b <==> && p.phase == "Pending" && p.nodeName == ""
                   && (forall i :: 0 <= i < |p.conditions| && p.conditions[i].kind == "PodScheduled" ==>
                         p.conditions[i].status != True && p.conditions[i].reason == "Unschedulable")
                   && Fits(p, plan) && ToleratesNode(p, taints)
    ensures b <==> Matches(p, plan, taints)
  {
    if p.phase != "Pending" || p.nodeName != "" {
      return false;
    }
    var i := 0;
    while i < |p.conditions|
      invariant 0 <= i <= |p.conditions|
      invariant forall j :: 0 <= j < i && p.conditions[j].kind == "PodScheduled" ==>
                  p.conditions[j].status != True && p.conditions[j].reason == "Unschedulable"
    {
      var c := p.conditions[i];
      assert c in p.conditions;
      i := i + 1;
      if c.kind != "PodScheduled" {
        continue;
      }
      if c.status == True {
        return false;
      }
      if c.reason != "Unschedulable" {
        return false;
      }
    }
    var fits := PodFitsInstanceType(p, plan);
    if !fits {
      return false;
    }
    var tolerates := PodToleratesNodeTaints(p, taints);
    if !tolerates {
      return false;
    }
    b := true;
  }

  method HasMatchingPendingPod(pods: seq<Pod>, node: Node) returns (b: bool)
    ensures b <==> exists i :: 0 <= i < |pods| && Matches(pods[i], Lookup(node.labels, INSTANCE_TYPE), node.taints)
    ensures b <==> Wanted(pods, node)
  {
    var plan := Lookup(node.labels, INSTANCE_TYPE);
    var i := 0;
    while i < |pods|
      invariant 0 <= i <= |pods|
      invariant forall j :: 0 <= j < i ==> !Matches(pods[j], plan, node.taints)
    {
      var matches := IsMatchingPending(pods[i], plan, node.taints);
      if matches {
        return true;
      }
      i := i + 1;
    }
    b := false;
  }

  /** The documented reading: pending because the scheduler found no node for it. */
  ghost predicate ReportedUnschedulable(p: Pod) {
    exists c :: c in p.conditions && c.kind == "PodScheduled" && c.status != True && c.reason == "Unschedulable"
  }

  /**
   * A matching pod is one reported as unschedulable exactly when it has a PodScheduled condition at
   * all; the source also takes pods the scheduler has not reported on yet.
   */
  lemma MatchesAsDocumentedExactly(p: Pod, plan: string, taints: seq<Taint>)
    requires Matches(p, plan, taints)
    ensures ReportedUnschedulable(p) <==> exists c :: c in p.conditions && c.kind == "PodScheduled"
  {
  }

  /** For one, a pod the scheduler has not looked at yet: pending, unbound, without any condition. */
  lemma UnseenPodMatches(plan: string)
    ensures var p := Pod("", [], false, "Pending", [], map[], None, []);
            Matches(p, plan, []) && !ReportedUnschedulable(p)
  {
  }

  /** More taints on a node never make more pods match it. */
  lemma MatchingIsAntitone(p: Pod, plan: string, fewer: seq<Taint>, more: seq<Taint>)
    requires forall t :: t in fewer ==> t in more
    requires Matches(p, plan, more)
    ensures Matches(p, plan, fewer)
  {
  }
}
