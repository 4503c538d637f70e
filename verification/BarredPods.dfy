/** An ARQ that allows nothing of a resource bars every pod of the namespace that needs some,
    whether or not the pod satisfies the ARQ's scopes, in every run in which pod names are not
    used twice. */
module BarredPods {
  import opened Resources
  import opened Handshake
  import opened HandshakeSafety
  import opened HandshakeLocks
  import opened HandshakeProgress
  import Admission

  /** What a pod needs of a resource. */
  function Weight(pod: Pod, r: string): int {
    Get(Effective(pod), r)
  }

  /** Quota i is an ARQ that allows none of the resource. */
  predicate AllowsNone(cl: Cluster, i: nat, r: string) {
    i in QuotasOf(cl, ArqLock) && Governs(cl, i, r) && cl.quotas[i].hard[r] <= 0
  }

  // ---------------------------------------------------------------- the invariant

  ghost predicate PodsFine(pods: Pods, podCache: Pods, created: set<string>) {
    && pods.Keys <= created && podCache.Keys <= created
    && (forall name | name in pods :: Admission.NonNegative(pods[name].usage))
    && (forall name | name in podCache :: Admission.NonNegative(podCache[name].usage))
    && (forall name | name in pods && name in podCache :: Follows(podCache[name], pods[name]))
  }

  predicate Recorded(used: seq<ResourceList>, i: nat, r: string) {
    i < |used| && Get(used[i], r) >= 0
  }

  /** A pod that existed under the name needs nothing by now. */
  predicate Light(pods: Pods, created: set<string>, name: string, r: string) {
    name in created && (name in pods ==> Weight(pods[name], r) == 0)
  }

  predicate AllLight(pods: Pods, created: set<string>, names: seq<string>, r: string) {
    forall k | 0 <= k < |names| :: Light(pods, created, names[k], r)
  }

  ghost predicate QueuesLight(pods: Pods, created: set<string>, history: History, r: string) {
    forall v | 0 <= v < |history| :: AllLight(pods, created, history[v].queue, r)
  }

  predicate GateLight(cl: Cluster, pods: Pods, created: set<string>, gate: Gate, i: nat, r: string) {
    match gate
    case Idle => true
    case HasQuotas(_, snapshot) => Recorded(snapshot, i, r)
    case Chosen(_, queue) => AllLight(pods, created, queue, r)
    case Releasing(names) => AllLight(pods, created, names, r)
  }

  ghost predicate Barred(cl: Cluster, s: State, i: nat, r: string) {
    && PodsFine(s.pods, s.podCache, s.created)
    && Recorded(s.used, i, r) && Recorded(s.usedCache, i, r)
    && QueuesLight(s.pods, s.created, s.history, r)
    && GateLight(cl, s.pods, s.created, s.gate, i, r)
  }

  // ---------------------------------------------------------------- pods move on

  /** No known pod comes to need more than nothing. */
  ghost predicate StayLight(pods: Pods, created: set<string>, pods': Pods, created': set<string>, r: string) {
    && created <= created'
    && forall name | name in created && name in pods' ::
         name in pods && (Weight(pods[name], r) == 0 ==> Weight(pods'[name], r) == 0)
  }

  lemma FollowsWeight(earlier: Pod, later: Pod, r: string)
    requires Follows(earlier, later) && IsSchedulable(r) && Admission.NonNegative(earlier.usage)
    ensures 0 <= Weight(later, r) <= Weight(earlier, r)
  {
    var i := 0;
    FollowsCharge(earlier.(scopes := {0}), later.(scopes := {0}), 0, r);
  }

  lemma LightStay(cl: Cluster, s: State, pods': Pods, created': set<string>, i: nat, r: string)
    requires StayLight(s.pods, s.created, pods', created', r)
    requires QueuesLight(s.pods, s.created, s.history, r) && GateLight(cl, s.pods, s.created, s.gate, i, r)
    ensures QueuesLight(pods', created', s.history, r) && GateLight(cl, pods', created', s.gate, i, r)
  {
    forall names | AllLight(s.pods, s.created, names, r)
      ensures AllLight(pods', created', names, r)
    {
      forall k | 0 <= k < |names|
        ensures Light(pods', created', names[k], r)
      {
        assert Light(s.pods, s.created, names[k], r);
      }
    }
  }

  /** One pod moves on. */
  lemma PodMoves(cl: Cluster, s: State, name: string, pod: Pod, i: nat, r: string)
    requires Barred(cl, s, i, r) && IsSchedulable(r)
    requires name in s.pods && Follows(s.pods[name], pod)
    ensures Barred(cl, s.(pods := s.pods[name := pod]), i, r)
  {
    var pods' := s.pods[name := pod];
    FollowsWeight(s.pods[name], pod, r);
    forall n | n in pods' && n in s.podCache
      ensures Follows(s.podCache[n], pods'[n])
    {
      assert Follows(s.podCache[n], s.pods[n]);
    }
    LightStay(cl, s, pods', s.created, i, r);
  }

  lemma CreationKeepsBarred(cl: Cluster, s: State, name: string, pod: Pod, i: nat, r: string)
    requires Barred(cl, s, i, r) && name !in s.created && Admission.NonNegative(pod.usage)
    ensures Barred(cl, s.(pods := s.pods[name := pod], created := s.created + {name}), i, r)
  {
    LightStay(cl, s, s.pods[name := pod], s.created + {name}, i, r);
  }

  lemma PodStepKeepsBarred(cl: Cluster, env: Environment, s: State, step: Step, i: nat, r: string)
    requires Barred(cl, s, i, r) && IsSchedulable(r) && Can(cl, env, s, step) && !env.namesReused
    requires ChangesPods(step)
    requires (forall name | name in s.pods && s.pods[name].gates != [] :: AAQ_GATE in s.pods[name].gates)
    ensures Barred(cl, Do(cl, env, s, step), i, r)
  {
    match step {
      case CreatePod(name, pod) => CreationKeepsBarred(cl, s, name, pod, i, r);
      case RemoveForeignGate(name, position) =>
        OtherGatesStay(s.pods[name].gates, position);
        var gates := s.pods[name].gates;
        PodMoves(cl, s, name, s.pods[name].(gates := gates[..position] + gates[position + 1..]), i, r);
      case FinishPod(name) => PodMoves(cl, s, name, s.pods[name].(finished := true), i, r);
      case DeletePod(name) => LightStay(cl, s, s.pods - {name}, s.created, i, r);
    }
  }

  // ---------------------------------------------------------------- the gate

  /** Nothing accepted weighs anything, because the limit is checked for every pod. */
  lemma {:induction false} ChargesNothing(tracked: set<string>, quota: Admission.Quota, i: nat,
                                          accepted: seq<Admission.Candidate>, r: string)
    requires forall k | 0 <= k < |accepted| :: Admission.NonNegative(accepted[k].request.usage)
    ensures Admission.ChargeAll(tracked, quota, i, accepted, r) >= 0
    ensures Admission.ChargeAll(tracked, quota, i, accepted, r) == 0 ==>
              forall k | 0 <= k < |accepted| :: Admission.Charge(tracked, quota, i, accepted[k].request, r) == 0
  {
    if accepted != [] {
      var n := |accepted| - 1;
      ChargesNothing(tracked, quota, i, accepted[..n], r);
      assert Admission.Charge(tracked, quota, i, accepted[n].request, r) >= 0;
      assert forall k | 0 <= k < n :: accepted[..n][k] == accepted[k];
    }
  }

  lemma AcceptedAreLight(cl: Cluster, s: State, known: set<nat>, snapshot: seq<ResourceList>,
                         listing: seq<string>, i: nat, r: string)
    requires AllowsNone(cl, i, r) && PodsFine(s.pods, s.podCache, s.created)
    requires |snapshot| == |cl.quotas| && Recorded(snapshot, i, r) && Lists(s.podCache, listing)
    ensures AllLight(s.pods, s.created,
                     Admission.Names(DecideBatch(cl, known, snapshot, s.podCache, listing).accepted), r)
  {
    var quotas, offered := GateQuotas(cl, snapshot), Offered(cl, known, s.podCache, listing);
    var accepted := Admission.Greedy(cl.tracked, quotas, offered).accepted;
    Admission.BatchLaw(cl.tracked, quotas, offered);
    ChargesNothing(cl.tracked, quotas[i], i, accepted, r);
    assert Admission.ChargeAll(cl.tracked, quotas[i], i, accepted, r) == 0;
    forall k | 0 <= k < |accepted|
      ensures Light(s.pods, s.created, Admission.Names(accepted)[k], r)
    {
      var c := accepted[k];
      assert c in accepted && c in offered && c.request == RequestOf(cl, known, s.podCache[c.name]);
      assert r in quotas[i].hard.Keys * cl.tracked;
      assert Admission.Concerns(cl.tracked, quotas[i], i, c.request);
      assert Weight(s.podCache[c.name], r) == Admission.Charge(cl.tracked, quotas[i], i, c.request, r) == 0;
      if c.name in s.pods {
        FollowsWeight(s.podCache[c.name], s.pods[c.name], r);
      }
    }
  }

  lemma CommitKeepsBarred(cl: Cluster, s: State, i: nat, r: string)
    requires Barred(cl, s, i, r) && s.gate.Chosen?
    ensures var jq := JobQueue(s.gate.queue, Some(AllLocks(cl)));
            && Barred(cl, s.(history := s.history + [jq], gate := Releasing(s.gate.queue)), i, r)
            && Barred(cl, s.(gate := Idle), i, r)
  {
    var jq := JobQueue(s.gate.queue, Some(AllLocks(cl)));
    forall v | 0 <= v < |s.history + [jq]|
      ensures AllLight(s.pods, s.created, (s.history + [jq])[v].queue, r)
    {
      if v < |s.history| {
        assert AllLight(s.pods, s.created, s.history[v].queue, r);
      }
    }
  }

  lemma GateKeepsBarred(cl: Cluster, env: Environment, s: State, step: Step, i: nat, r: string)
    requires Barred(cl, s, i, r) && AllowsNone(cl, i, r) && Can(cl, env, s, step)
    requires OfGate(step)
    ensures Barred(cl, Do(cl, env, s, step), i, r)
  {
    match step {
      case GateCreate =>
      case GateRead(version) =>
        assert AllLight(s.pods, s.created, s.history[version].queue, r);
      case GateDecide(listing, known) => AcceptedAreLight(cl, s, known, s.gate.snapshot, listing, i, r);
      case GateCommit => CommitKeepsBarred(cl, s, i, r);
      case GateRelease => ReleaseKeepsBarred(cl, s, i, r);
      case GateStop =>
    }
  }

  lemma ReleaseKeepsBarred(cl: Cluster, s: State, i: nat, r: string)
    requires Barred(cl, s, i, r) && IsSchedulable(r) && s.gate.Releasing? && s.gate.names != []
    ensures Barred(cl, ReleaseOne(s, s.gate.names[0], s.gate.names[1..]), i, r)
  {
    var name := s.gate.names[0];
    var after := s.(gate := Releasing(s.gate.names[1..]));
    assert Barred(cl, after, i, r);
    if name in s.pods {
      PodMoves(cl, after, name, s.pods[name].(gates := []), i, r);
    }
  }

  // ---------------------------------------------------------------- the quota controllers

  lemma {:induction false} TotalNonNegative(m: map<string, int>)
    requires forall k | k in m :: m[k] >= 0
    ensures Total(m) >= 0
    decreases |m|
  {
    if m != map[] {
      var k :| k in m;
      TotalRemove(m, k);
      GetWithout(m, k);
      TotalNonNegative(m - {k});
    }
  }

  /** What is recorded is never negative. */
  lemma RecordStays(cl: Cluster, s: State, j: nat, newUsed: ResourceList, failed: bool, i: nat, r: string)
    requires Barred(cl, s, i, r) && Governs(cl, i, r)
    requires j < |s.used| && j < |cl.quotas| && Records(cl, s, j, newUsed, failed)
    ensures Recorded(s.used[j := newUsed], i, r)
  {
    if i == j && !failed {
      var m := Contributions(s.podCache, {}, i, r);
      forall name | name in m
        ensures m[name] >= 0
      {
        assert m[name] == Get(m, name) == Contribution(s.podCache, {}, name, i, r);
        FollowsCharge(s.podCache[name], s.podCache[name], i, r);
      }
      TotalNonNegative(m);
      assert newUsed[r] == Usage(s.podCache, i, r);
    }
  }

  lemma WorkerKeepsBarred(cl: Cluster, env: Environment, s: State, step: Step, i: nat, r: string)
    requires Barred(cl, s, i, r) && AllowsNone(cl, i, r) && Can(cl, env, s, step)
    requires OfWorker(step)
    ensures Barred(cl, Do(cl, env, s, step), i, r)
  {
    match step {
      case WorkerRead(_, _, _) =>
      case WorkerSync(_, j, newUsed, failed) => RecordStays(cl, s, j, newUsed, failed, i, r);
      case WorkerSkip(_, _) =>
      case WorkerUnlock(lock) =>
        assert AllLight(s.pods, s.created, s.history[s.workers[lock].unlock.value].queue, r);
      case WorkerStop(_) =>
      case BackgroundSync(j, newUsed, failed) => RecordStays(cl, s, j, newUsed, failed, i, r);
    }
  }

  // ---------------------------------------------------------------- runs

  lemma StepKeepsBarred(cl: Cluster, env: Environment, s: State, step: Step, i: nat, r: string)
    requires Barred(cl, s, i, r) && AllowsNone(cl, i, r) && Structure(cl, s) && Can(cl, env, s, step)
    requires !env.namesReused
    ensures Barred(cl, Do(cl, env, s, step), i, r)
  {
    if OfGate(step) {
      GateKeepsBarred(cl, env, s, step, i, r);
    } else if OfWorker(step) {
      WorkerKeepsBarred(cl, env, s, step, i, r);
    } else if ChangesPods(step) {
      PodStepKeepsBarred(cl, env, s, step, i, r);
    }
  }

  lemma InitIsBarred(cl: Cluster, s: State, i: nat, r: string)
    requires Init(cl, s) && AllowsNone(cl, i, r)
    ensures Barred(cl, s, i, r)
  {
    var m := Contributions(s.pods, {}, i, r);
    forall name | name in m
      ensures m[name] >= 0
    {
      assert m[name] == Get(m, name) == Contribution(s.pods, {}, name, i, r);
      FollowsCharge(s.pods[name], s.pods[name], i, r);
    }
    TotalNonNegative(m);
    assert Usage(s.pods, i, r) <= Get(s.used[i], r);
  }

  lemma {:induction false} RunKeepsBarred(cl: Cluster, env: Environment, s: State, steps: seq<Step>, end: State,
                                          i: nat, r: string)
    requires Barred(cl, s, i, r) && Structure(cl, s) && AllowsNone(cl, i, r) && !env.namesReused
    requires Runs(cl, env, s, steps, end)
    ensures Barred(cl, end, i, r) && Structure(cl, end)
    decreases |steps|
  {
    if steps != [] {
      StepKeepsBarred(cl, env, s, steps[0], i, r);
      StructureStep(cl, env, s, steps[0]);
      RunKeepsBarred(cl, env, Do(cl, env, s, steps[0]), steps[1..], end, i, r);
    }
  }

  lemma ReachableIsBarred(cl: Cluster, env: Environment, s: State, i: nat, r: string)
    requires Reachable(cl, env, s) && AllowsNone(cl, i, r) && !env.namesReused
    ensures Barred(cl, s, i, r) && Structure(cl, s)
  {
    var start, steps :| Init(cl, start) && Runs(cl, env, start, steps, s);
    InitIsBarred(cl, start, i, r);
    RunKeepsBarred(cl, env, start, steps, s, i, r);
  }

  /** A step that ungates a pod finds it in need of nothing. */
  lemma UngatedNeedNothing(cl: Cluster, env: Environment, s: State, step: Step, name: string, i: nat, r: string)
    requires Barred(cl, s, i, r) && Structure(cl, s) && Can(cl, env, s, step)
    requires name in s.pods && s.pods[name].gates != []
    requires name in Do(cl, env, s, step).pods && Do(cl, env, s, step).pods[name].gates == []
    ensures Weight(s.pods[name], r) == 0
  {
    OnlyCommittedUngated(cl, env, s, step);
    var v: nat :| v < |s.history| && name in s.history[v].queue;
    assert AllLight(s.pods, s.created, s.history[v].queue, r);
    var k :| 0 <= k < |s.history[v].queue| && s.history[v].queue[k] == name;
    assert Light(s.pods, s.created, s.history[v].queue[k], r);
  }

  /** Where names are not used twice, a pod under a known name is the same pod. */
  lemma StepFollowsName(cl: Cluster, env: Environment, s: State, step: Step, name: string)
    requires Structure(cl, s) && Can(cl, env, s, step) && !env.namesReused && name in s.created
    ensures name in Do(cl, env, s, step).created
    ensures name in Do(cl, env, s, step).pods ==>
              name in s.pods && Follows(s.pods[name], Do(cl, env, s, step).pods[name])
  {
    if Internal(step) && !step.GateRelease? {
      OnlyReleaseUngates(cl, env, s, step);
    } else if step.RemoveForeignGate? {
      OtherGatesStay(s.pods[step.name].gates, step.position);
    }
  }

  lemma {:induction false} RunFollowsName(cl: Cluster, env: Environment, s: State, steps: seq<Step>, end: State,
                                          name: string, r: string)
    requires Structure(cl, s) && Runs(cl, env, s, steps, end) && !env.namesReused && name in s.created
    requires name in end.pods && IsSchedulable(r) && Weight(end.pods[name], r) != 0
    requires name in s.pods ==> Admission.NonNegative(s.pods[name].usage)
    ensures name in s.pods && Weight(s.pods[name], r) != 0
    decreases |steps|
  {
    if steps != [] {
      var mid := Do(cl, env, s, steps[0]);
      StepFollowsName(cl, env, s, steps[0], name);
      StructureStep(cl, env, s, steps[0]);
      RunFollowsName(cl, env, mid, steps[1..], end, name, r);
      FollowsWeight(s.pods[name], mid.pods[name], r);
    }
  }

  /** So a gated pod that needs some of the resource is never released, in any run: as long as
      it exists and has not finished, it is gated. */
  lemma {:induction false} BarredStaysGated(cl: Cluster, env: Environment, s: State, steps: seq<Step>, end: State,
                                            name: string, i: nat, r: string)
    requires Reachable(cl, env, s) && !env.namesReused && AllowsNone(cl, i, r) && Runs(cl, env, s, steps, end)
    requires name in s.pods && s.pods[name].gates != []
    requires name in end.pods && Weight(end.pods[name], r) != 0
    ensures end.pods[name].gates != []
    decreases |steps|
  {
    ReachableIsBarred(cl, env, s, i, r);
    if steps != [] {
      var mid := Do(cl, env, s, steps[0]);
      ReachableOn(cl, env, s, steps[0]);
      ReachableIsBarred(cl, env, mid, i, r);
      StepFollowsName(cl, env, s, steps[0], name);
      RunFollowsName(cl, env, mid, steps[1..], end, name, r);
      if mid.pods[name].gates == [] {
        UngatedNeedNothing(cl, env, s, steps[0], name, i, r);
        FollowsWeight(s.pods[name], mid.pods[name], r);
        assert false;
      }
      BarredStaysGated(cl, env, mid, steps[1..], end, name, i, r);
    }
  }

  lemma ReachableOn(cl: Cluster, env: Environment, s: State, step: Step)
    requires Reachable(cl, env, s) && Can(cl, env, s, step)
    ensures Reachable(cl, env, Do(cl, env, s, step))
  {
    var start, steps :| Init(cl, start) && Runs(cl, env, start, steps, s);
    assert Leads(cl, env, start, s);
    LeadsStep(cl, env, start, s, step);
    var more :| Runs(cl, env, start, more, Do(cl, env, s, step));
  }
}
