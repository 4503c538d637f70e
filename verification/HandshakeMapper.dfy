/** Two runs of a namespace with one cluster quota that end above its limit, because the
    mapper does not give the quota for the namespace yet: to the gate controller in one, to
    the ACRQ controller in the other. */
module HandshakeMapper {
  import opened Resources
  import opened Handshake
  import opened HandshakeSafety
  import opened HandshakeRuns
  import Admission

  // ---------------------------------------------------------------- the example namespace

  const SHARED_CPUS := Cluster([QuotaSpec(map["cpu" := 2], AcrqLock)], {"cpu"}, true)

  const NOTHING_USED: seq<ResourceList> := [map["cpu" := 0]]

  const BOTH_HELD := map[ArqLock := true, AcrqLock := true]
  const ACRQ_HELD := map[ArqLock := false, AcrqLock := true]
  const NONE_HELD := map[ArqLock := false, AcrqLock := false]

  function BothResting(): Workers {
    map[ArqLock := Resting, AcrqLock := Resting]
  }

  function Start(): State {
    State(map[], map[], {}, NOTHING_USED, NOTHING_USED, [], Idle, BothResting())
  }

  lemma QuotasOfTheExample()
    ensures QuotasOf(SHARED_CPUS, ArqLock) == {} && QuotasOf(SHARED_CPUS, AcrqLock) == {0}
    ensures AllLocks(SHARED_CPUS) == BOTH_HELD
  {
  }

  lemma StartIsInitial()
    ensures Init(SHARED_CPUS, Start())
  {
    forall lock: Lock
      ensures lock in BothResting()
    {
      assert lock == ArqLock || lock == AcrqLock;
    }
    forall i: nat, r | i < |SHARED_CPUS.quotas| && r in SHARED_CPUS.quotas[i].hard && Metered(SHARED_CPUS, r)
      ensures Usage(map[], i, r) <= 0
    {
      assert Contributions(map[], {}, i, r) == map[];
    }
  }

  lemma AboveLimit(env: Environment, s: State)
    requires Leads(SHARED_CPUS, env, Start(), s) && Usage(s.pods, 0, "cpu") > 2
    ensures !AlwaysWithinLimits(env)
  {
    StartIsInitial();
    assert Metered(SHARED_CPUS, "cpu");
    var steps :| Runs(SHARED_CPUS, env, Start(), steps, s);
    assert Reachable(SHARED_CPUS, env, s);
    assert !WithinLimits(SHARED_CPUS, s);
  }

  // ---------------------------------------------------------------- decisions

  /** What the gate asks for a gated pod, knowing the cluster quotas of `known`. */
  function Ask(name: string, n: nat, known: set<nat>): Admission.Candidate {
    Admission.Candidate(name, Admission.Request(map["cpu" := n], known))
  }

  /** A listing that ends with the only gated pod. */
  lemma OffersLast(pods: Pods, name: string, n: nat, known: set<nat>)
    requires name in pods && pods[name] == Gated(n) && known <= {0}
    ensures Offered(SHARED_CPUS, known, pods, [name]) == [Ask(name, n, known)]
  {
    QuotasOfTheExample();
    assert CheckedAgainst(SHARED_CPUS, known, Gated(n)) == known;
    assert Effective(Gated(n)) == map["cpu" := n];
    assert Offered(SHARED_CPUS, known, pods, [name][1..]) == [];
  }

  /** A pod checked against no quota, or within the limit, is admitted. */
  lemma Admits(pods: Pods, listing: seq<string>, name: string, n: nat, known: set<nat>)
    requires forall k | 0 <= k < |listing| :: listing[k] in pods
    requires Offered(SHARED_CPUS, known, pods, listing) == [Ask(name, n, known)]
    requires known == {} || (known == {0} && n <= 2)
    ensures Admission.Names(DecideBatch(SHARED_CPUS, known, NOTHING_USED, pods, listing).accepted) == [name]
  {
    var quotas := GateQuotas(SHARED_CPUS, NOTHING_USED);
    var offered := [Ask(name, n, known)];
    assert offered[..0] == [];
    assert Admission.Greedy({"cpu"}, quotas, []) == Admission.Batch([], quotas);
    assert Admission.Accepts({"cpu"}, quotas, Ask(name, n, known).request);
    assert [] + offered == offered;
    assert Admission.Greedy({"cpu"}, quotas, offered).accepted == offered;
  }

  // ---------------------------------------------------------------- the first pod

  /** Pod "a" is created and seen, and the job queue object exists. */
  function Arrived(n: nat): State {
    State(map["a" := Gated(n)], map["a" := Gated(n)], {"a"}, NOTHING_USED, NOTHING_USED,
          [EMPTY_QUEUE], Idle, BothResting())
  }

  lemma ReachesArrived(env: Environment, n: nat)
    ensures Leads(SHARED_CPUS, env, Start(), Arrived(n))
  {
    Arrives(SHARED_CPUS, env, Start(), "a", n);
    var s1 := Arrived(n).(history := []);
    assert Start().pods["a" := Gated(n)] == s1.pods && {} + {"a"} == {"a"};
    CreatesQueue(SHARED_CPUS, env, s1);
    LeadsOn(SHARED_CPUS, env, Start(), s1, Arrived(n));
  }

  /** It is committed as the queue and released. */
  function FirstOut(n: nat): State {
    Arrived(n).(pods := map["a" := Ungated(n)], history := [EMPTY_QUEUE, JobQueue(["a"], Some(BOTH_HELD))],
                gate := Releasing([]))
  }

  function FirstCommit(n: nat): State {
    Arrived(n).(history := FirstOut(n).history, gate := Releasing(["a"]))
  }

  lemma ReachesFirstCommit(env: Environment, n: nat, known: set<nat>)
    requires Knows(SHARED_CPUS, env.gateMapperLags, known) && (known == {} || n <= 2)
    ensures Leads(SHARED_CPUS, env, Start(), FirstCommit(n))
  {
    QuotasOfTheExample();
    ReachesArrived(env, n);
    OffersLast(Arrived(n).podCache, "a", n, known);
    Admits(Arrived(n).podCache, ["a"], "a", n, known);
    Commits(SHARED_CPUS, env, Arrived(n), 0, ["a"], known, ["a"]);
    assert [EMPTY_QUEUE] + [JobQueue(["a"], Some(BOTH_HELD))] == FirstOut(n).history;
    LeadsOn(SHARED_CPUS, env, Start(), Arrived(n), FirstCommit(n));
  }

  lemma ReachesFirstOut(env: Environment, n: nat, known: set<nat>)
    requires Knows(SHARED_CPUS, env.gateMapperLags, known) && (known == {} || n <= 2)
    ensures Leads(SHARED_CPUS, env, Start(), FirstOut(n))
  {
    ReachesFirstCommit(env, n, known);
    assert ["a"] == ["a"] + [];
    Releases(SHARED_CPUS, env, FirstCommit(n), "a", [], n);
    assert FirstCommit(n).pods["a" := Ungated(n)] == FirstOut(n).pods;
    LeadsOn(SHARED_CPUS, env, Start(), FirstCommit(n), FirstOut(n));
  }

  /** The gate checks a pod against no quota at all while the mapper does not give it the
      cluster quota. */
  lemma UnknownQuotaExceeds(env: Environment)
    requires env.gateMapperLags
    ensures !AlwaysWithinLimits(env)
  {
    QuotasOfTheExample();
    ReachesFirstOut(env, 5, {});
    UsageOfTwo(FirstOut(5).pods, "a", "b");
    AboveLimit(env, FirstOut(5));
  }

  // ---------------------------------------------------------------- locks cleared, nothing recounted

  /** The cache shows pod "a" released. */
  function Observed(queues: seq<JobQueue>): State {
    State(map["a" := Ungated(2)], map["a" := Ungated(2)], {"a"}, NOTHING_USED, NOTHING_USED,
          queues, Idle, BothResting())
  }

  function AfterFirst(locks: map<Lock, bool>): JobQueue {
    JobQueue(["a"], Some(locks))
  }

  lemma ReachesObserved(env: Environment)
    ensures Leads(SHARED_CPUS, env, Start(), Observed(LOCKED))
  {
    QuotasOfTheExample();
    ReachesFirstOut(env, 2, {0});
    var s1 := FirstOut(2);
    Stops(SHARED_CPUS, env, s1);
    var s2 := s1.(gate := Idle);
    LeadsOn(SHARED_CPUS, env, Start(), s1, s2);
    ObservesPod(SHARED_CPUS, env, s2, "a", 2);
    assert s2.podCache["a" := Ungated(2)] == s2.pods;
    LeadsOn(SHARED_CPUS, env, Start(), s2, Observed(LOCKED));
  }

  /** A controller that has no quota to recount starts a round from the current version. */
  lemma BeginsUnsynced(env: Environment, queues: seq<JobQueue>, lock: Lock, locks: map<Lock, bool>)
    requires queues != [] && queues[|queues| - 1] == AfterFirst(locks) && lock in locks && locks[lock]
    requires lock.AcrqLock? ==> env.syncMapperLags
    ensures var s := Observed(queues);
            Leads(SHARED_CPUS, env, s, s.(workers := s.workers[lock := Syncing(Some(|queues| - 1), {})]))
  {
    QuotasOfTheExample();
    var s, known := Observed(queues), if lock.AcrqLock? then {} else {0};
    var read := WorkerRead(lock, Some(|queues| - 1), known);
    LeadsHere(SHARED_CPUS, env, s);
    assert ["a"][1..] == [];
    assert Verified(s.podCache, s.pods, ["a"]);
    assert ToSync(SHARED_CPUS, lock, known) == {};
    assert Can(SHARED_CPUS, env, s, read);
    LeadsStep(SHARED_CPUS, env, s, s, read);
  }

  /** And ends it by clearing its lock. */
  lemma ClearsUnsynced(env: Environment, queues: seq<JobQueue>, lock: Lock, locks: map<Lock, bool>)
    requires queues != [] && queues[|queues| - 1] == AfterFirst(locks) && lock in locks && locks[lock]
    requires lock.AcrqLock? ==> env.syncMapperLags
    ensures Leads(SHARED_CPUS, env, Observed(queues), Observed(queues + [AfterFirst(locks[lock := false])]))
  {
    BeginsUnsynced(env, queues, lock, locks);
    var s := Observed(queues);
    var s1 := s.(workers := s.workers[lock := Syncing(Some(|queues| - 1), {})]);
    assert Can(SHARED_CPUS, env, s1, WorkerUnlock(lock));
    LeadsStep(SHARED_CPUS, env, s, s1, WorkerUnlock(lock));
    assert s1.workers[lock := Resting] == BothResting();
  }

  /** Both controllers end their rounds, and the usage of "a" is recorded nowhere. */
  const LOCKED := [EMPTY_QUEUE, AfterFirst(BOTH_HELD)]
  const HALF_UNLOCKED := [EMPTY_QUEUE, AfterFirst(BOTH_HELD), AfterFirst(ACRQ_HELD)]
  const UNLOCKED := [EMPTY_QUEUE, AfterFirst(BOTH_HELD), AfterFirst(ACRQ_HELD), AfterFirst(NONE_HELD)]

  lemma ReachesHalfUnlocked(env: Environment)
    ensures Leads(SHARED_CPUS, env, Start(), Observed(HALF_UNLOCKED))
  {
    ReachesObserved(env);
    ClearsUnsynced(env, LOCKED, ArqLock, BOTH_HELD);
    assert BOTH_HELD[ArqLock := false] == ACRQ_HELD;
    assert LOCKED + [AfterFirst(ACRQ_HELD)] == HALF_UNLOCKED;
    LeadsOn(SHARED_CPUS, env, Start(), Observed(LOCKED), Observed(HALF_UNLOCKED));
  }

  lemma ReachesUnlocked(env: Environment)
    requires env.syncMapperLags
    ensures Leads(SHARED_CPUS, env, Start(), Observed(UNLOCKED))
  {
    ReachesHalfUnlocked(env);
    ClearsUnsynced(env, HALF_UNLOCKED, AcrqLock, ACRQ_HELD);
    assert ACRQ_HELD[AcrqLock := false] == NONE_HELD;
    assert HALF_UNLOCKED + [AfterFirst(NONE_HELD)] == UNLOCKED;
    LeadsOn(SHARED_CPUS, env, Start(), Observed(HALF_UNLOCKED), Observed(UNLOCKED));
  }

  /** A second pod is accepted against the usage recorded before the first. */
  function SecondQueued(): State {
    var pods := map["a" := Ungated(2), "b" := Gated(2)];
    State(pods, pods, {"a", "b"}, NOTHING_USED, NOTHING_USED,
          UNLOCKED + [JobQueue(["b"], Some(BOTH_HELD))], Releasing(["b"]), BothResting())
  }

  lemma ReachesSecondArrival(env: Environment)
    requires env.syncMapperLags
    ensures Leads(SHARED_CPUS, env, Start(), SecondQueued().(history := UNLOCKED, gate := Idle))
  {
    ReachesUnlocked(env);
    var s1 := Observed(UNLOCKED);
    Arrives(SHARED_CPUS, env, s1, "b", 2);
    var s2 := SecondQueued().(history := UNLOCKED, gate := Idle);
    assert s1.pods["b" := Gated(2)] == s2.pods && {"a"} + {"b"} == {"a", "b"};
    LeadsOn(SHARED_CPUS, env, Start(), s1, s2);
  }

  lemma ReachesSecondQueued(env: Environment)
    requires env.syncMapperLags
    ensures Leads(SHARED_CPUS, env, Start(), SecondQueued())
  {
    QuotasOfTheExample();
    ReachesSecondArrival(env);
    var s := SecondQueued().(history := UNLOCKED, gate := Idle);
    var listing := ["a", "b"];
    assert listing[1..] == ["b"];
    OffersLast(s.podCache, "b", 2, {0});
    assert Offered(SHARED_CPUS, {0}, s.podCache, listing) == [Ask("b", 2, {0})];
    Admits(s.podCache, listing, "b", 2, {0});
    Commits(SHARED_CPUS, env, s, 3, listing, {0}, ["b"]);
    LeadsOn(SHARED_CPUS, env, Start(), s, SecondQueued());
  }

  /** The ACRQ controller recounts nothing while the mapper does not give it the quota, clears
      its lock all the same, and the gate admits a pod too many. */
  lemma UnsyncedQuotaExceeds(env: Environment)
    requires env.syncMapperLags
    ensures !AlwaysWithinLimits(env)
  {
    ReachesSecondQueued(env);
    var s := SecondQueued();
    assert ["b"] == ["b"] + [];
    Releases(SHARED_CPUS, env, s, "b", [], 2);
    var end := s.(pods := s.pods["b" := Ungated(2)], gate := Releasing([]));
    LeadsOn(SHARED_CPUS, env, Start(), s, end);
    UsageOfTwo(end.pods, "a", "b");
    AboveLimit(env, end);
  }
}
