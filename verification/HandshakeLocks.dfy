/** What every reachable state and every step say about the locks, the queue and the gates,
    whatever the environment does; and the handshake invariant in plain terms. */
module HandshakeLocks {
  import opened Resources
  import opened Handshake
  import opened HandshakeSafety

  // ---------------------------------------------------------------- all environments

  /** Facts that need no assumption on the environment. */
  ghost predicate Structure(cl: Cluster, s: State) {
    && (forall name | name in s.pods && s.pods[name].gates != [] :: AAQ_GATE in s.pods[name].gates)
    && GateStructure(cl, s.history, s.gate)
    && WorkersOk(s.history, s.workers)
  }

  ghost predicate GateStructure(cl: Cluster, history: History, gate: Gate) {
    match gate
    case Idle => true
    case HasQuotas(version, _) => version < |history| && Processed(cl, history[version])
    case Chosen(version, _) => version < |history| && Processed(cl, history[version])
    case Releasing(names) => forall name | name in names :: Committed(history, name)
  }

  /** How the job queue object may change in one step. */
  ghost predicate Transition(cl: Cluster, s: State, step: Step, history': History) {
    || history' == s.history
    || (step.GateCreate? && s.history == [] && history' == [EMPTY_QUEUE])
    || (&& step.GateCommit? && s.gate.Chosen? && s.gate.queue != [] && s.history != []
        && Processed(cl, Current(s.history)) && IsCurrent(s.history, s.gate.version)
        && history' == s.history + [JobQueue(s.gate.queue, Some(AllLocks(cl)))])
    || (&& step.WorkerUnlock? && s.history != [] && |history'| == |s.history| + 1
        && history'[..|s.history|] == s.history
        && Current(history').queue == Current(s.history).queue
        && Held(Current(s.history), step.lock) && !Held(Current(history'), step.lock)
        && (forall lock | lock != step.lock :: Held(Current(history'), lock) <==> Held(Current(s.history), lock)))
  }

  lemma CommittedGrows(history: History, history': History, name: string)
    requires |history| <= |history'| && history'[..|history|] == history && Committed(history, name)
    ensures Committed(history', name)
  {
    var v: nat :| v < |history| && name in history[v].queue;
    assert history'[v] == history'[..|history|][v];
  }

  lemma StructureOfHistory(cl: Cluster, s: State, history': History, workers': Workers)
    requires GateStructure(cl, s.history, s.gate) && WorkersOk(s.history, workers')
    requires |s.history| <= |history'| && history'[..|s.history|] == s.history
    ensures GateStructure(cl, history', s.gate) && WorkersOk(history', workers')
  {
    assert forall v: nat | v < |s.history| :: history'[v] == history'[..|s.history|][v];
    if s.gate.Releasing? {
      forall name | name in s.gate.names
        ensures Committed(history', name)
      {
        CommittedGrows(s.history, history', name);
      }
    }
  }

  lemma PodStepStructure(cl: Cluster, env: Environment, s: State, step: Step)
    requires Structure(cl, s) && Can(cl, env, s, step)
    requires ChangesPods(step) || step.GateRelease?
    ensures Structure(cl, Do(cl, env, s, step)) && Do(cl, env, s, step).history == s.history
  {
    if step.RemoveForeignGate? {
      OtherGatesStay(s.pods[step.name].gates, step.position);
    }
  }

  lemma GateReadStructure(cl: Cluster, env: Environment, s: State, version: nat)
    requires Structure(cl, s) && Can(cl, env, s, GateRead(version))
    ensures Structure(cl, Do(cl, env, s, GateRead(version)))
  {
    var s' := Do(cl, env, s, GateRead(version));
    if s'.gate.Releasing? {
      forall name | name in s'.gate.names
        ensures Committed(s.history, name)
      {
      }
    } else {
      assert Processed(cl, s.history[version]);
    }
  }

  lemma CommitStructure(cl: Cluster, env: Environment, s: State)
    requires Structure(cl, s) && Can(cl, env, s, GateCommit)
    ensures Structure(cl, Do(cl, env, s, GateCommit))
    ensures Transition(cl, s, GateCommit, Do(cl, env, s, GateCommit).history)
  {
    var s' := Do(cl, env, s, GateCommit);
    if s'.history != s.history {
      StructureOfHistory(cl, s, s'.history, s.workers);
      forall name | name in s.gate.queue
        ensures Committed(s'.history, name)
      {
        assert name in s'.history[|s.history|].queue;
      }
    }
  }

  lemma WorkerStructure(cl: Cluster, env: Environment, s: State, step: Step)
    requires Structure(cl, s) && Can(cl, env, s, step)
    requires step.WorkerRead? || step.WorkerSync? || step.WorkerSkip? || step.WorkerStop? || step.BackgroundSync?
    ensures Structure(cl, Do(cl, env, s, step)) && Do(cl, env, s, step).history == s.history
  {
  }

  lemma StructureStep(cl: Cluster, env: Environment, s: State, step: Step)
    requires Structure(cl, s) && Can(cl, env, s, step)
    ensures Structure(cl, Do(cl, env, s, step))
    ensures Transition(cl, s, step, Do(cl, env, s, step).history)
  {
    match step {
      case CreatePod(_, _) => PodStepStructure(cl, env, s, step);
      case RemoveForeignGate(_, _) => PodStepStructure(cl, env, s, step);
      case FinishPod(_) => PodStepStructure(cl, env, s, step);
      case DeletePod(_) => PodStepStructure(cl, env, s, step);
      case ObservePod(_, _) =>
      case ForgetPod(_) =>
      case ObserveQuota(_) =>
      case GateCreate => StructureOfHistory(cl, s, [EMPTY_QUEUE], s.workers);
      case GateRead(version) => GateReadStructure(cl, env, s, version);
      case GateDecide(_, _) =>
      case GateCommit => CommitStructure(cl, env, s);
      case GateRelease => PodStepStructure(cl, env, s, step);
      case GateStop =>
      case WorkerRead(_, _, _) => WorkerStructure(cl, env, s, step);
      case WorkerSync(_, _, _, _) => WorkerStructure(cl, env, s, step);
      case WorkerSkip(_, _) => WorkerStructure(cl, env, s, step);
      case WorkerUnlock(lock) => UnlockStructure(cl, env, s, lock);
      case WorkerStop(_) => WorkerStructure(cl, env, s, step);
      case BackgroundSync(_, _, _) => WorkerStructure(cl, env, s, step);
    }
  }

  lemma UnlockStructure(cl: Cluster, env: Environment, s: State, lock: Lock)
    requires Structure(cl, s) && Can(cl, env, s, WorkerUnlock(lock))
    ensures Structure(cl, Do(cl, env, s, WorkerUnlock(lock)))
    ensures Transition(cl, s, WorkerUnlock(lock), Do(cl, env, s, WorkerUnlock(lock)).history)
  {
    var s' := Do(cl, env, s, WorkerUnlock(lock));
    StructureOfHistory(cl, s, s'.history, s'.workers);
    if s'.history != s.history {
      assert s.history[s.workers[lock].unlock.value] == Current(s.history);
      assert s'.history[..|s.history|] == s.history;
    }
  }

  lemma {:induction false} StructureOfRuns(cl: Cluster, env: Environment, s: State, steps: seq<Step>, end: State)
    requires Structure(cl, s) && Runs(cl, env, s, steps, end)
    ensures Structure(cl, end)
    decreases |steps|
  {
    if steps != [] {
      StructureStep(cl, env, s, steps[0]);
      StructureOfRuns(cl, env, Do(cl, env, s, steps[0]), steps[1..], end);
    }
  }

  lemma ReachableStructure(cl: Cluster, env: Environment, s: State)
    requires Reachable(cl, env, s)
    ensures Structure(cl, s)
  {
    var start, steps :| Init(cl, start) && Runs(cl, env, start, steps, s);
    StructureOfRuns(cl, env, start, steps, s);
  }

  lemma OnlyCommittedUngated(cl: Cluster, env: Environment, s: State, step: Step)
    requires Structure(cl, s) && Can(cl, env, s, step)
    ensures forall name | && name in s.pods && name in Do(cl, env, s, step).pods
                          && s.pods[name].gates != [] && Do(cl, env, s, step).pods[name].gates == [] ::
              step.GateRelease? && Releasable(s.pods[name]) && Committed(s.history, name)
  {
    if ChangesPods(step) {
      PodStepStructure(cl, env, s, step);
    } else if step.GateRelease? {
      assert s.gate.names[0] in s.gate.names;
    }
  }

  /** Lock isolation, in every run of every environment. The job queue object changes only
      when it is created, when the gate opens a round from the current version with every
      relevant lock clear, or when a controller clears its own lock and touches nothing
      else; and a gate comes off only a pod of some committed queue. */
  lemma LocksAreIsolated(cl: Cluster, env: Environment, s: State, step: Step)
    requires Reachable(cl, env, s) && Can(cl, env, s, step)
    ensures Transition(cl, s, step, Do(cl, env, s, step).history)
    ensures forall name | && name in s.pods && name in Do(cl, env, s, step).pods
                          && s.pods[name].gates != [] && Do(cl, env, s, step).pods[name].gates == [] ::
              step.GateRelease? && Releasable(s.pods[name]) && Committed(s.history, name)
  {
    ReachableStructure(cl, env, s);
    StructureStep(cl, env, s, step);
    OnlyCommittedUngated(cl, env, s, step);
  }

  // ---------------------------------------------------------------- benign environments

  lemma ReachableInv(cl: Cluster, env: Environment, s: State)
    requires Benign(env) && Reachable(cl, env, s)
    ensures Inv(cl, env, s)
  {
    var start, steps :| Init(cl, start) && Runs(cl, env, start, steps, s);
    InitEstablishesInv(cl, env, start);
    RunKeepsInv(cl, env, start, steps, s);
  }

  /** The handshake invariant. While a lock is clear, the pods of the last committed queue
      are released or gone and the quotas behind that lock have recorded at least the usage
      of all ungated pods; and always, usage plus what the queue still holds back fits. */
  lemma HandshakeInvariant(cl: Cluster, env: Environment, s: State)
    requires Benign(env) && Reachable(cl, env, s)
    ensures forall lock | Enabled(cl, lock) && !Held(Current(s.history), lock) ::
              QueueSettled(s.pods, Current(s.history).queue)
    ensures |s.used| == |cl.quotas|
    ensures forall i: nat, r | Governs(cl, i, r) && !Held(Current(s.history), cl.quotas[i].lock) ::
              Usage(s.pods, i, r) <= Get(s.used[i], r)
    ensures forall i: nat, r | Governs(cl, i, r) ::
              Reserved(s.pods, QueueSet(Current(s.history).queue), i, r) <= cl.quotas[i].hard[r]
  {
    ReachableInv(cl, env, s);
    forall i: nat, r | Governs(cl, i, r) && !Held(Current(s.history), cl.quotas[i].lock)
      ensures Usage(s.pods, i, r) <= Get(s.used[i], r)
    {
      assert MustCover(cl, s.history, s.workers, i);
      assert Covers(cl, s.pods, i, s.used[i]);
    }
    forall lock, name | Enabled(cl, lock) && !Held(Current(s.history), lock) && name in Current(s.history).queue
      ensures Settled(s.pods, name)
    {
      assert Quiet(s.history, s.workers, lock);
    }
  }
}
