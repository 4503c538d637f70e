/** Every lock round can end: from any reachable state the controllers alone, without any
    help of the environment, can release the whole queue and clear every lock; and no step
    but a new commit ever adds to what a round has left to do. */
module HandshakeProgress {
  import opened Resources
  import opened Handshake
  import opened HandshakeSafety
  import opened HandshakeLocks
  import Admission

  /** Steps that are not moves of the environment: cache updates and the controllers' own. */
  predicate Internal(step: Step) {
    !ChangesPods(step)
  }

  ghost predicate Drives(cl: Cluster, env: Environment, s: State, end: State) {
    exists steps :: Runs(cl, env, s, steps, end) && forall step | step in steps :: Internal(step)
  }

  lemma DrivesHere(cl: Cluster, env: Environment, s: State)
    ensures Drives(cl, env, s, s)
  {
    assert Runs(cl, env, s, [], s);
  }

  lemma DrivesStep(cl: Cluster, env: Environment, s: State, step: Step)
    requires Can(cl, env, s, step) && Internal(step)
    ensures Drives(cl, env, s, Do(cl, env, s, step))
  {
    var end := Do(cl, env, s, step);
    assert Runs(cl, env, end, [], end);
    assert Runs(cl, env, s, [step], end) by { assert [step][1..] == []; }
  }

  lemma DrivesOn(cl: Cluster, env: Environment, s: State, mid: State, end: State)
    requires Drives(cl, env, s, mid) && Drives(cl, env, mid, end)
    ensures Drives(cl, env, s, end)
  {
    var first :| Runs(cl, env, s, first, mid) && forall step | step in first :: Internal(step);
    var second :| Runs(cl, env, mid, second, end) && forall step | step in second :: Internal(step);
    RunsConcat(cl, env, s, first, mid, second, end);
  }

  // ---------------------------------------------------------------- queued pods can be released

  predicate Ready(pods: Pods, name: string) {
    name in pods ==> pods[name].gates == [] || Releasable(pods[name])
  }

  /** Every committed or chosen pod carries no gate but the AAQ gate. */
  ghost predicate QueuesReady(s: State) {
    && (forall v: nat, name | v < |s.history| && name in s.history[v].queue :: Ready(s.pods, name))
    && (s.gate.Chosen? ==> forall name | name in s.gate.queue :: Ready(s.pods, name))
  }

  lemma FollowsReady(earlier: Pod, later: Pod)
    requires Follows(earlier, later) && (earlier.gates == [] || Releasable(earlier))
    ensures later.gates == [] || Releasable(later)
  {
    assert |later.gates| <= 1;
    if |later.gates| == 1 {
      assert later.gates[0] in later.gates;
      assert later.gates == [later.gates[0]];
    }
  }

  /** Known pods only move on. */
  ghost predicate KnownFollow(s: State, pods': Pods) {
    forall name | name in pods' && name in s.created :: name in s.pods && Follows(s.pods[name], pods'[name])
  }

  lemma FollowsSelf(pod: Pod)
    ensures Follows(pod, pod)
  {
  }

  lemma OneFollows(s: State, name: string, pod: Pod)
    requires name in s.pods && Follows(s.pods[name], pod)
    requires forall n | n in s.pods :: n in s.created
    ensures KnownFollow(s, s.pods[name := pod])
  {
  }

  lemma EnvironmentFollows(cl: Cluster, env: Environment, s: State, step: Step)
    requires Benign(env) && PodsOk(env, s.pods, s.podCache, s.created) && Can(cl, env, s, step) && !Internal(step)
    ensures KnownFollow(s, Do(cl, env, s, step).pods)
  {
    match step {
      case CreatePod(name, pod) =>
        assert name !in s.created;
      case RemoveForeignGate(name, position) =>
        var gates := s.pods[name].gates;
        OneFollows(s, name, s.pods[name].(gates := gates[..position] + gates[position + 1..]));
      case FinishPod(name) => OneFollows(s, name, s.pods[name].(finished := true));
      case DeletePod(name) =>
    }
  }

  lemma StepFollows(cl: Cluster, env: Environment, s: State, step: Step)
    requires Benign(env) && PodsOk(env, s.pods, s.podCache, s.created) && Can(cl, env, s, step)
    ensures KnownFollow(s, Do(cl, env, s, step).pods)
  {
    if !Internal(step) {
      EnvironmentFollows(cl, env, s, step);
    } else if step.GateRelease? {
      var name := s.gate.names[0];
      if name in s.pods {
        OneFollows(s, name, s.pods[name].(gates := []));
      }
    } else {
      OnlyReleaseUngates(cl, env, s, step);
    }
  }

  lemma OnlyReleaseUngates(cl: Cluster, env: Environment, s: State, step: Step)
    requires Can(cl, env, s, step) && Internal(step) && !step.GateRelease?
    ensures Do(cl, env, s, step).pods == s.pods
  {
  }

  lemma ReadyFollows(s: State, s': State, name: string)
    requires KnownFollow(s, s'.pods) && name in s.created && Ready(s.pods, name)
    ensures Ready(s'.pods, name)
  {
    if name in s'.pods {
      FollowsReady(s.pods[name], s'.pods[name]);
    }
  }

  lemma KnownStayReady(env: Environment, s: State, s': State, names: seq<string>)
    requires KnownFollow(s, s'.pods)
    requires forall name | name in names :: Known(env, s.podCache, s.created, name) && Ready(s.pods, name)
    ensures forall name | name in names :: Ready(s'.pods, name)
  {
    forall name | name in names
      ensures Ready(s'.pods, name)
    {
      ReadyFollows(s, s', name);
    }
  }

  lemma StepKeepsReady(cl: Cluster, env: Environment, s: State, step: Step)
    requires Benign(env) && Inv(cl, env, s) && Can(cl, env, s, step) && QueuesReady(s)
    ensures QueuesReady(Do(cl, env, s, step))
  {
    var s' := Do(cl, env, s, step);
    StepFollows(cl, env, s, step);
    StructureOfInv(cl, env, s);
    StructureStep(cl, env, s, step);
    forall v: nat | v < |s.history|
      ensures forall name | name in s.history[v].queue :: Ready(s'.pods, name)
    {
      KnownStayReady(env, s, s', s.history[v].queue);
    }
    if s.gate.Chosen? {
      KnownStayReady(env, s, s', s.gate.queue);
    }
    if step.GateDecide? {
      ChosenAreReady(cl, env, s, step.listing, step.known);
    }
    ReadyHistory(cl, env, s, step);
  }

  lemma StructureOfInv(cl: Cluster, env: Environment, s: State)
    requires Inv(cl, env, s)
    ensures Structure(cl, s)
  {
  }

  /** Where the queues after a step come from. */
  lemma ReadyHistory(cl: Cluster, env: Environment, s: State, step: Step)
    requires Can(cl, env, s, step) && Transition(cl, s, step, Do(cl, env, s, step).history)
    requires var pods' := Do(cl, env, s, step).pods;
             && (forall v: nat, name | v < |s.history| && name in s.history[v].queue :: Ready(pods', name))
             && (s.gate.Chosen? ==> forall name | name in s.gate.queue :: Ready(pods', name))
    ensures var s' := Do(cl, env, s, step);
            forall v: nat, name | v < |s'.history| && name in s'.history[v].queue :: Ready(s'.pods, name)
    ensures Do(cl, env, s, step).gate.Chosen? ==> step.GateDecide? || Do(cl, env, s, step).gate == s.gate
  {
    var s' := Do(cl, env, s, step);
    if |s'.history| == |s.history| + 1 && s.history != [] {
      assert s'.history[|s.history|] == Current(s'.history);
      assert forall v: nat | v < |s.history| :: s'.history[v] == s'.history[..|s.history|][v] == s.history[v];
    }
  }

  lemma ChosenAreReady(cl: Cluster, env: Environment, s: State, listing: seq<string>, known: set<nat>)
    requires Inv(cl, env, s) && Can(cl, env, s, GateDecide(listing, known))
    ensures forall name | name in Do(cl, env, s, GateDecide(listing, known)).gate.queue :: Ready(s.pods, name)
  {
    var accepted := DecideBatch(cl, known, s.gate.snapshot, s.podCache, listing).accepted;
    Admission.BatchLaw(cl.tracked, GateQuotas(cl, s.gate.snapshot), Offered(cl, known, s.podCache, listing));
    forall name | name in Admission.Names(accepted)
      ensures Ready(s.pods, name)
    {
      var k :| 0 <= k < |accepted| && accepted[k].name == name;
      assert accepted[k] in accepted;
      if name in s.pods {
        FollowsReady(s.podCache[name], s.pods[name]);
      }
    }
  }

  lemma {:induction false} RunKeepsReady(cl: Cluster, env: Environment, s: State, steps: seq<Step>, end: State)
    requires Benign(env) && Inv(cl, env, s) && QueuesReady(s) && Runs(cl, env, s, steps, end)
    ensures Inv(cl, env, end) && QueuesReady(end)
    decreases |steps|
  {
    if steps != [] {
      StepKeepsInv(cl, env, s, steps[0]);
      StepKeepsReady(cl, env, s, steps[0]);
      RunKeepsReady(cl, env, Do(cl, env, s, steps[0]), steps[1..], end);
    }
  }

  lemma ReachableReady(cl: Cluster, env: Environment, s: State)
    requires Benign(env) && Reachable(cl, env, s)
    ensures Inv(cl, env, s) && QueuesReady(s)
  {
    var start, steps :| Init(cl, start) && Runs(cl, env, start, steps, s);
    InitEstablishesInv(cl, env, start);
    RunKeepsReady(cl, env, start, steps, s);
  }

  // ---------------------------------------------------------------- the measure

  function StillGated(pods: Pods, queue: seq<string>): set<string> {
    set name | name in queue && name in pods && pods[name].gates != []
  }

  function HeldLocks(cl: Cluster, jq: JobQueue): set<Lock> {
    set lock | lock in {ArqLock, AcrqLock} && Enabled(cl, lock) && Held(jq, lock)
  }

  /** What the current round has left to do: pods to release plus locks to clear. */
  function Left(cl: Cluster, s: State): nat {
    |StillGated(s.pods, Current(s.history).queue)| + |HeldLocks(cl, Current(s.history))|
  }

  lemma SubsetSmaller<T>(a: set<T>, b: set<T>)
    requires a <= b
    ensures |a| <= |b| && (a != b ==> |a| < |b|)
  {
    if a != b {
      assert |b - a| + |a| == |b| by { assert b == (b - a) + a; }
      var x :| x in b - a;
    }
  }

  predicate OpensRound(s: State, step: Step) {
    step.GateCommit? && s.gate.Chosen? && s.gate.queue != [] && IsCurrent(s.history, s.gate.version)
  }

  /** Only opening a round adds to what is left; releasing a pod of the current queue or
      clearing an enabled lock strictly reduces it. */
  lemma WorkOnlyShrinks(cl: Cluster, env: Environment, s: State, step: Step)
    requires Benign(env) && Reachable(cl, env, s) && Can(cl, env, s, step) && !OpensRound(s, step)
    ensures var s' := Do(cl, env, s, step);
            && Left(cl, s') <= Left(cl, s)
            && (StillGated(s'.pods, Current(s.history).queue) != StillGated(s.pods, Current(s.history).queue) ==>
                  Left(cl, s') < Left(cl, s))
            && (HeldLocks(cl, Current(s'.history)) != HeldLocks(cl, Current(s.history)) ==> Left(cl, s') < Left(cl, s))
  {
    ReachableReady(cl, env, s);
    StructureOfInv(cl, env, s);
    StructureStep(cl, env, s, step);
    var s' := Do(cl, env, s, step);
    QueueShrinks(cl, env, s, step);
    NotOpeningKeepsQueue(cl, s, step, s'.history);
    SubsetSmaller(StillGated(s'.pods, Current(s.history).queue), StillGated(s.pods, Current(s.history).queue));
    SubsetSmaller(HeldLocks(cl, Current(s'.history)), HeldLocks(cl, Current(s.history)));
  }

  lemma NotOpeningKeepsQueue(cl: Cluster, s: State, step: Step, history': History)
    requires Transition(cl, s, step, history') && !OpensRound(s, step)
    ensures Current(history').queue == Current(s.history).queue
    ensures HeldLocks(cl, Current(history')) <= HeldLocks(cl, Current(s.history))
  {
  }

  lemma QueueShrinks(cl: Cluster, env: Environment, s: State, step: Step)
    requires Benign(env) && Inv(cl, env, s) && Can(cl, env, s, step)
    ensures StillGated(Do(cl, env, s, step).pods, Current(s.history).queue)
         <= StillGated(s.pods, Current(s.history).queue)
  {
    StepFollows(cl, env, s, step);
    var pods' := Do(cl, env, s, step).pods;
    var queue := Current(s.history).queue;
    forall name | name in StillGated(pods', queue)
      ensures name in StillGated(s.pods, queue)
    {
      assert name in s.history[|s.history| - 1].queue;
      assert Known(env, s.podCache, s.created, name);
    }
  }

  // ---------------------------------------------------------------- bringing everything up to date

  /** Caches are current and no controller is in the middle of anything. */
  ghost predicate Fresh(s: State) {
    && s.podCache == s.pods && s.usedCache == s.used && s.gate.Idle?
    && forall lock | lock in s.workers :: s.workers[lock].Resting?
  }

  function Stale(s: State): set<string> {
    set name | name in s.pods.Keys + s.podCache.Keys
      && !(name in s.pods && name in s.podCache && s.podCache[name] == s.pods[name])
  }

  lemma {:induction false} ObservesPods(cl: Cluster, env: Environment, s: State)
    ensures Drives(cl, env, s, s.(podCache := s.pods))
    decreases |Stale(s)|
  {
    if Stale(s) == {} {
      assert forall name | name in s.pods.Keys + s.podCache.Keys :: name !in Stale(s);
      assert s.podCache == s.pods;
      DrivesHere(cl, env, s);
    } else {
      var name :| name in Stale(s);
      var step := if name in s.pods then ObservePod(name, s.pods[name]) else ForgetPod(name);
      if name in s.pods {
        FollowsSelf(s.pods[name]);
      }
      assert Can(cl, env, s, step);
      DrivesStep(cl, env, s, step);
      var s1 := Do(cl, env, s, step);
      assert Stale(s1) == Stale(s) - {name};
      ObservesPods(cl, env, s1);
      DrivesOn(cl, env, s, s1, s.(podCache := s.pods));
    }
  }

  lemma {:induction false} ObservesQuotas(cl: Cluster, env: Environment, s: State, n: nat)
    requires n <= |s.used| == |s.usedCache| && s.usedCache[..n] == s.used[..n]
    ensures Drives(cl, env, s, s.(usedCache := s.used))
    decreases |s.used| - n
  {
    if n == |s.used| {
      assert s.usedCache == s.used;
      DrivesHere(cl, env, s);
    } else {
      DrivesStep(cl, env, s, ObserveQuota(n));
      var s1 := s.(usedCache := s.usedCache[n := s.used[n]]);
      assert s1.usedCache[..n + 1] == s1.usedCache[..n] + [s.used[n]];
      assert s.used[..n + 1] == s.used[..n] + [s.used[n]];
      assert s1.usedCache[..n] == s.usedCache[..n];
      ObservesQuotas(cl, env, s1, n + 1);
      DrivesOn(cl, env, s, s1, s.(usedCache := s.used));
    }
  }

  lemma WorkerRests(cl: Cluster, env: Environment, s: State, lock: Lock)
    requires lock in s.workers
    ensures Drives(cl, env, s, s.(workers := s.workers[lock := Resting]))
  {
    if s.workers[lock].Syncing? {
      DrivesStep(cl, env, s, WorkerStop(lock));
    } else {
      assert s.workers[lock := Resting] == s.workers;
      DrivesHere(cl, env, s);
    }
  }

  lemma GateRests(cl: Cluster, env: Environment, s: State)
    ensures Drives(cl, env, s, s.(gate := Idle))
  {
    if s.gate.Idle? {
      DrivesHere(cl, env, s);
    } else {
      DrivesStep(cl, env, s, GateStop);
    }
  }

  lemma AllWorkersRest(cl: Cluster, env: Environment, s: State) returns (t: State)
    ensures Drives(cl, env, s, t)
    ensures t == s.(workers := t.workers) && t.workers.Keys == s.workers.Keys
    ensures forall lock | lock in t.workers :: t.workers[lock].Resting?
  {
    t := s;
    DrivesHere(cl, env, s);
    if ArqLock in t.workers {
      WorkerRests(cl, env, t, ArqLock);
      DrivesOn(cl, env, s, t, t.(workers := t.workers[ArqLock := Resting]));
      t := t.(workers := t.workers[ArqLock := Resting]);
    }
    if AcrqLock in t.workers {
      WorkerRests(cl, env, t, AcrqLock);
      DrivesOn(cl, env, s, t, t.(workers := t.workers[AcrqLock := Resting]));
      t := t.(workers := t.workers[AcrqLock := Resting]);
    }
    forall lock | lock in t.workers
      ensures t.workers[lock].Resting?
    {
      assert lock == ArqLock || lock == AcrqLock;
    }
  }

  /** Everything can be brought up to date without touching the store. */
  lemma Freshens(cl: Cluster, env: Environment, s: State) returns (t: State)
    requires |s.used| == |s.usedCache|
    ensures Drives(cl, env, s, t) && Fresh(t)
    ensures t.pods == s.pods && t.used == s.used && t.history == s.history && t.workers.Keys == s.workers.Keys
  {
    GateRests(cl, env, s);
    var s1 := s.(gate := Idle);
    ObservesPods(cl, env, s1);
    var s2 := s1.(podCache := s.pods);
    DrivesOn(cl, env, s, s1, s2);
    ObservesQuotas(cl, env, s2, 0);
    var s3 := s2.(usedCache := s.used);
    DrivesOn(cl, env, s, s2, s3);
    t := AllWorkersRest(cl, env, s3);
    DrivesOn(cl, env, s, s3, t);
  }

  // ---------------------------------------------------------------- the gate releases the queue

  function Released(pods: Pods, names: seq<string>): Pods {
    map name | name in pods :: if name in names then pods[name].(gates := []) else pods[name]
  }

  /** One release, followed by the cache noticing it. */
  lemma ReleasesFirst(cl: Cluster, env: Environment, s: State, names: seq<string>)
    requires s.gate == Releasing(names) && names != [] && s.podCache == s.pods && Ready(s.pods, names[0])
    ensures var pods' := Released(s.pods, [names[0]]);
            Drives(cl, env, s, s.(pods := pods', podCache := pods', gate := Releasing(names[1..])))
  {
    var name := names[0];
    var pods' := Released(s.pods, [name]);
    DrivesStep(cl, env, s, GateRelease);
    var s1 := s.(pods := pods', gate := Releasing(names[1..]));
    if name in s.pods && Releasable(s.pods[name]) {
      assert pods' == s.pods[name := s.pods[name].(gates := [])];
    } else {
      assert pods' == s.pods;
    }
    assert Do(cl, env, s, GateRelease) == s1;
    ObservesPods(cl, env, s1);
    DrivesOn(cl, env, s, s1, s1.(podCache := pods'));
  }

  lemma {:induction false} GateWalks(cl: Cluster, env: Environment, s: State, names: seq<string>)
    requires s.gate == Releasing(names) && s.podCache == s.pods
    requires forall name | name in names :: Ready(s.pods, name)
    ensures var pods' := Released(s.pods, names);
            Drives(cl, env, s, s.(pods := pods', podCache := pods', gate := Idle))
    decreases |names|
  {
    if names == [] {
      assert Released(s.pods, names) == s.pods;
      GateRests(cl, env, s);
    } else {
      ReleasesFirst(cl, env, s, names);
      var pods1 := Released(s.pods, [names[0]]);
      var s1 := s.(pods := pods1, podCache := pods1, gate := Releasing(names[1..]));
      forall name | name in names[1..]
        ensures Ready(pods1, name)
      {
        assert Ready(s.pods, name);
      }
      GateWalks(cl, env, s1, names[1..]);
      assert Released(pods1, names[1..]) == Released(s.pods, names);
      DrivesOn(cl, env, s, s1, s.(pods := Released(s.pods, names), podCache := Released(s.pods, names), gate := Idle));
    }
  }

  // ---------------------------------------------------------------- a worker clears its lock

  lemma {:induction false} SettledIsVerified(pods: Pods, queue: seq<string>, rest: seq<string>)
    requires QueueSettled(pods, queue) && forall name | name in rest :: name in queue
    ensures VerifiedFrom(pods, pods, queue, rest)
  {
    if rest != [] && rest[0] in pods {
      assert rest[0] in queue;
      SettledIsVerified(pods, queue, rest[1..]);
    }
  }

  /** The worker recounts its quotas one by one. */
  lemma {:induction false} SyncsAll(cl: Cluster, env: Environment, s: State, lock: Lock) returns (t: State)
    requires lock in s.workers && s.workers[lock].Syncing? && s.podCache == s.pods && |s.used| == |cl.quotas|
    requires s.workers[lock].todo <= QuotasOf(cl, lock)
    ensures Drives(cl, env, s, t) && |t.used| == |s.used|
    ensures t == s.(used := t.used, workers := s.workers[lock := s.workers[lock].(todo := {})])
    decreases s.workers[lock].todo
  {
    var worker := s.workers[lock];
    if worker.todo == {} {
      DrivesHere(cl, env, s);
      t := s;
      assert s.workers[lock := worker.(todo := {})] == s.workers;
    } else {
      var i :| i in worker.todo;
      var newUsed := map r | r in cl.quotas[i].hard :: Usage(s.podCache, i, r);
      DrivesStep(cl, env, s, WorkerSync(lock, i, newUsed, false));
      var s1 := s.(used := s.used[i := newUsed], workers := s.workers[lock := worker.(todo := worker.todo - {i})]);
      t := SyncsAll(cl, env, s1, lock);
      DrivesOn(cl, env, s, s1, t);
      assert s1.workers[lock := worker.(todo := {})] == s.workers[lock := worker.(todo := {})];
    }
  }

  /** With the queue settled, the controller of a held lock verifies, recounts and unlocks. */
  lemma ClearsLock(cl: Cluster, env: Environment, s: State, lock: Lock) returns (t: State)
    requires Fresh(s) && lock in s.workers && |s.used| == |cl.quotas|
    requires s.history != [] && Held(Current(s.history), lock) && QueueSettled(s.pods, Current(s.history).queue)
    ensures Drives(cl, env, s, t) && Fresh(t)
    ensures t.pods == s.pods && t.workers.Keys == s.workers.Keys && |t.used| == |s.used| && t.history != []
    ensures Current(t.history).queue == Current(s.history).queue
    ensures forall l :: Held(Current(t.history), l) <==> l != lock && Held(Current(s.history), l)
  {
    var version := |s.history| - 1;
    var queue := s.history[version].queue;
    SettledIsVerified(s.pods, queue, queue);
    DrivesStep(cl, env, s, WorkerRead(lock, Some(version), QuotasOf(cl, AcrqLock)));
    var s1 := s.(workers := s.workers[lock := Syncing(Some(version), QuotasOf(cl, lock))]);
    var s2 := SyncsAll(cl, env, s1, lock);
    DrivesOn(cl, env, s, s1, s2);
    var s3 := WritesUnlock(cl, env, s2, lock);
    DrivesOn(cl, env, s, s2, s3);
    assert s3.workers.Keys == s.workers.Keys;
    t := Freshens(cl, env, s3);
    DrivesOn(cl, env, s, s3, t);
  }

  lemma WritesUnlock(cl: Cluster, env: Environment, s: State, lock: Lock) returns (t: State)
    requires lock in s.workers && s.history != [] && Held(Current(s.history), lock)
    requires s.workers[lock] == Syncing(Some(|s.history| - 1), {})
    ensures Drives(cl, env, s, t)
    ensures t == s.(history := t.history, workers := s.workers[lock := Resting])
    ensures t.history != [] && Current(t.history).queue == Current(s.history).queue
    ensures forall l :: Held(Current(t.history), l) <==> l != lock && Held(Current(s.history), l)
  {
    DrivesStep(cl, env, s, WorkerUnlock(lock));
    t := Do(cl, env, s, WorkerUnlock(lock));
  }

  lemma ClearsIfHeld(cl: Cluster, env: Environment, s: State, mid: State, lock: Lock) returns (t: State)
    requires Drives(cl, env, s, mid) && Fresh(mid) && |mid.used| == |cl.quotas|
    requires mid.history != [] && QueueSettled(mid.pods, Current(mid.history).queue)
    ensures Drives(cl, env, s, t) && Fresh(t)
    ensures t.pods == mid.pods && t.workers.Keys == mid.workers.Keys && |t.used| == |mid.used| && t.history != []
    ensures Current(t.history).queue == Current(mid.history).queue
    ensures forall l :: Held(Current(t.history), l) <==>
              !(l == lock && l in mid.workers) && Held(Current(mid.history), l)
  {
    t := mid;
    if lock in mid.workers && Held(Current(mid.history), lock) {
      t := ClearsLock(cl, env, mid, lock);
      DrivesOn(cl, env, s, mid, t);
    }
  }

  /** From every reachable state the controllers can finish the round by themselves: every
      pod of the current queue is released or gone and every lock is clear. */
  lemma RoundCanEnd(cl: Cluster, env: Environment, s: State)
    requires Benign(env) && Reachable(cl, env, s)
    ensures exists end :: Drives(cl, env, s, end) && Processed(cl, Current(end.history))
              && Current(end.history).queue == Current(s.history).queue
              && QueueSettled(end.pods, Current(end.history).queue)
  {
    ReachableReady(cl, env, s);
    var queue := Current(s.history).queue;
    if Processed(cl, Current(s.history)) {
      DrivesHere(cl, env, s);
      assert Quiet(s.history, s.workers, ArqLock);
    } else {
      assert forall name | name in queue :: Ready(s.pods, name) by { assert s.history[|s.history| - 1].queue == queue; }
      var t := ReleasesQueue(cl, env, s);
      t := ClearsIfHeld(cl, env, s, t, ArqLock);
      t := ClearsIfHeld(cl, env, s, t, AcrqLock);
      forall lock | Enabled(cl, lock)
        ensures !Held(Current(t.history), lock)
      {
        assert lock == ArqLock || lock == AcrqLock;
      }
    }
  }

  lemma ReleasesQueue(cl: Cluster, env: Environment, s: State) returns (t: State)
    requires !Processed(cl, Current(s.history)) && Shape(cl, s)
    requires forall name | name in Current(s.history).queue :: Ready(s.pods, name)
    ensures Drives(cl, env, s, t) && Fresh(t) && Shape(cl, t)
    ensures t.history == s.history && QueueSettled(t.pods, Current(t.history).queue)
  {
    var queue := Current(s.history).queue;
    var s1 := Freshens(cl, env, s);
    var version := |s.history| - 1;
    DrivesStep(cl, env, s1, GateRead(version));
    var s2 := s1.(gate := Releasing(queue));
    DrivesOn(cl, env, s, s1, s2);
    GateWalks(cl, env, s2, queue);
    var pods' := Released(s.pods, queue);
    t := s2.(pods := pods', podCache := pods', gate := Idle);
    DrivesOn(cl, env, s, s2, t);
  }
}
