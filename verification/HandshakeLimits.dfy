/** The handshake needs every one of its assumptions: for each that fails there is a run of
    a one-quota namespace that ends above the limit. Together with the safety theorem this
    gives the exact condition under which hard limits hold. */
module HandshakeLimits {
  import opened Resources
  import opened Handshake
  import opened HandshakeSafety
  import opened HandshakeRuns
  import HandshakeMapper
  import Admission

  // ---------------------------------------------------------------- the example namespace

  const TWO_CPUS := Cluster([QuotaSpec(map["cpu" := 2], ArqLock)], {"cpu"}, false)

  function Used(n: int): seq<ResourceList> {
    [map["cpu" := n]]
  }

  function Resting1(): Workers {
    map[ArqLock := Resting]
  }

  function Locked(queue: seq<string>): JobQueue {
    JobQueue(queue, Some(map[ArqLock := true]))
  }

  function Unlocked(queue: seq<string>): JobQueue {
    JobQueue(queue, Some(map[ArqLock := false]))
  }

  function Start(): State {
    State(map[], map[], {}, Used(0), Used(0), [], Idle, Resting1())
  }

  lemma CpuIsMetered()
    ensures Metered(TWO_CPUS, "cpu") && Governs(TWO_CPUS, 0, "cpu")
  {
  }

  lemma StartIsInitial()
    ensures Init(TWO_CPUS, Start())
  {
    forall i: nat, r | i < |TWO_CPUS.quotas| && r in TWO_CPUS.quotas[i].hard && Metered(TWO_CPUS, r)
      ensures Usage(map[], i, r) <= 0
    {
      assert Contributions(map[], {}, i, r) == map[];
    }
  }

  // ---------------------------------------------------------------- the ARQ worker's round

  /** The ARQ worker verifies the current queue. */
  lemma Verifies(env: Environment, s: State, version: nat, queue: seq<string>)
    requires s.workers == Resting1() && version + 1 == |s.history| && s.history[version] == Locked(queue)
    requires PodsReadable(env, s) && Verified(s.podCache, s.pods, queue)
    ensures Leads(TWO_CPUS, env, s, s.(workers := map[ArqLock := Syncing(Some(version), {0})]))
  {
    LeadsHere(TWO_CPUS, env, s);
    var read := WorkerRead(ArqLock, Some(version), {});
    assert Can(TWO_CPUS, env, s, read);
    LeadsStep(TWO_CPUS, env, s, s, read);
    assert QuotasOf(TWO_CPUS, ArqLock) == {0};
    assert s.workers[ArqLock := Syncing(Some(version), {0})] == map[ArqLock := Syncing(Some(version), {0})];
  }

  /** It records the usage its cache shows. */
  lemma Records1(env: Environment, s: State, version: nat, n: int)
    requires s.workers == map[ArqLock := Syncing(Some(version), {0})] && |s.used| == 1
    requires PodsReadable(env, s) && Usage(s.podCache, 0, "cpu") == n
    ensures Leads(TWO_CPUS, env, s, s.(used := Used(n), workers := map[ArqLock := Syncing(Some(version), {})]))
  {
    LeadsHere(TWO_CPUS, env, s);
    var sync := WorkerSync(ArqLock, 0, map["cpu" := n], false);
    assert Recounts(TWO_CPUS, s.podCache, 0, map["cpu" := n]);
    assert Can(TWO_CPUS, env, s, sync);
    LeadsStep(TWO_CPUS, env, s, s, sync);
    assert s.used[0 := map["cpu" := n]] == Used(n);
    assert {0} - {0} == {};
    assert s.workers[ArqLock := Syncing(Some(version), {})] == map[ArqLock := Syncing(Some(version), {})];
  }

  /** It clears its lock. */
  lemma Clears(env: Environment, s: State, version: nat, queue: seq<string>)
    requires s.workers == map[ArqLock := Syncing(Some(version), {})]
    requires version + 1 == |s.history| && s.history[version] == Locked(queue)
    ensures Leads(TWO_CPUS, env, s, s.(history := s.history + [Unlocked(queue)], workers := Resting1()))
  {
    LeadsHere(TWO_CPUS, env, s);
    assert Can(TWO_CPUS, env, s, WorkerUnlock(ArqLock));
    LeadsStep(TWO_CPUS, env, s, s, WorkerUnlock(ArqLock));
    assert map[ArqLock := true][ArqLock := false] == map[ArqLock := false];
    assert s.workers[ArqLock := Resting] == Resting1();
  }

  /** A whole round of the ARQ worker. */
  lemma Unlocks(env: Environment, s: State, version: nat, queue: seq<string>, n: int)
    requires s.workers == Resting1() && |s.used| == 1 && version + 1 == |s.history|
    requires s.history[version] == Locked(queue)
    requires PodsReadable(env, s) && Verified(s.podCache, s.pods, queue)
    requires Usage(s.podCache, 0, "cpu") == n
    ensures Leads(TWO_CPUS, env, s, s.(used := Used(n), history := s.history + [Unlocked(queue)]))
  {
    Verifies(env, s, version, queue);
    var s1 := s.(workers := map[ArqLock := Syncing(Some(version), {0})]);
    Records1(env, s1, version, n);
    var s2 := s1.(used := Used(n), workers := map[ArqLock := Syncing(Some(version), {})]);
    Clears(env, s2, version, queue);
    LeadsOn(TWO_CPUS, env, s, s1, s2);
    LeadsOn(TWO_CPUS, env, s, s2, s.(used := Used(n), history := s.history + [Unlocked(queue)]));
  }

  // ---------------------------------------------------------------- decisions

  function Ask(name: string, n: nat): Admission.Candidate {
    Admission.Candidate(name, Admission.Request(map["cpu" := n], {0}))
  }

  /** A listing of one gated pod. */
  lemma OffersOne(pods: Pods, name: string, n: nat)
    requires name in pods && pods[name] == Gated(n)
    ensures Offered(TWO_CPUS, {}, pods, [name]) == [Ask(name, n)]
  {
    assert CheckedAgainst(TWO_CPUS, {}, Gated(n)) == {0};
    assert Effective(Gated(n)) == map["cpu" := n];
    assert Offered(TWO_CPUS, {}, pods, [name][1..]) == [];
  }

  /** With usage recorded as zero, a listing whose only gated pod asks for two cpus admits it. */
  lemma AdmitsOne(podCache: Pods, listing: seq<string>, name: string)
    requires forall k | 0 <= k < |listing| :: listing[k] in podCache
    requires Offered(TWO_CPUS, {}, podCache, listing) == [Ask(name, 2)]
    ensures Admission.Names(DecideBatch(TWO_CPUS, {}, Used(0), podCache, listing).accepted) == [name]
  {
    var quotas := GateQuotas(TWO_CPUS, Used(0));
    var offered := [Ask(name, 2)];
    assert offered[..0] == [];
    assert Admission.Greedy({"cpu"}, quotas, []) == Admission.Batch([], quotas);
    assert Admission.Accepts({"cpu"}, quotas, Ask(name, 2).request);
    assert [] + [Ask(name, 2)] == [Ask(name, 2)];
    assert Admission.Greedy({"cpu"}, quotas, offered).accepted == [Ask(name, 2)];
  }

  /** A pod that asks for nothing is admitted as well. */
  lemma AdmitsFreeAndTwo(podCache: Pods, listing: seq<string>, free: string, name: string)
    requires forall k | 0 <= k < |listing| :: listing[k] in podCache
    requires Offered(TWO_CPUS, {}, podCache, listing) == [Ask(free, 0), Ask(name, 2)]
    ensures Admission.Names(DecideBatch(TWO_CPUS, {}, Used(0), podCache, listing).accepted) == [free, name]
  {
    var quotas := GateQuotas(TWO_CPUS, Used(0));
    var offered := [Ask(free, 0), Ask(name, 2)];
    assert offered[..1] == [Ask(free, 0)] && offered[..1][..0] == [];
    assert Admission.Greedy({"cpu"}, quotas, []) == Admission.Batch([], quotas);
    assert RemoveZeros(map["cpu" := 0]) == map[];
    assert Admission.CheckRequest({"cpu"}, quotas, Ask(free, 0).request) == Some(quotas);
    assert Admission.Greedy({"cpu"}, quotas, offered[..1]) == Admission.Batch([Ask(free, 0)], quotas);
    assert Admission.Accepts({"cpu"}, quotas, Ask(name, 2).request);
    assert Admission.Greedy({"cpu"}, quotas, offered).accepted == [Ask(free, 0), Ask(name, 2)];
  }

  // ---------------------------------------------------------------- the violations

  lemma AboveLimit(env: Environment, s: State)
    requires Leads(TWO_CPUS, env, Start(), s) && Usage(s.pods, 0, "cpu") > 2
    ensures !AlwaysWithinLimits(env)
  {
    StartIsInitial();
    CpuIsMetered();
    var steps :| Runs(TWO_CPUS, env, Start(), steps, s);
    assert Reachable(TWO_CPUS, env, s);
    assert !WithinLimits(TWO_CPUS, s);
  }

  /** Where every scenario begins: pod "a" is created, seen, and committed as the queue. */
  function FirstCommit(n: nat): State {
    State(map["a" := Gated(n)], map["a" := Gated(n)], {"a"}, Used(0), Used(0),
          [EMPTY_QUEUE, Locked(["a"])], Releasing(["a"]), Resting1())
  }

  lemma ReachesFirstCommit(env: Environment)
    ensures Leads(TWO_CPUS, env, Start(), FirstCommit(2))
  {
    Arrives(TWO_CPUS, env, Start(), "a", 2);
    var s1 := Start().(pods := map["a" := Gated(2)], podCache := map["a" := Gated(2)], created := {"a"});
    assert Start().pods["a" := Gated(2)] == s1.pods && {} + {"a"} == {"a"};
    CreatesQueue(TWO_CPUS, env, s1);
    var s2 := s1.(history := [EMPTY_QUEUE]);
    LeadsOn(TWO_CPUS, env, Start(), s1, s2);
    OffersOne(s2.podCache, "a", 2);
    AdmitsOne(s2.podCache, ["a"], "a");
    Commits(TWO_CPUS, env, s2, 0, ["a"], {}, ["a"]);
    assert [EMPTY_QUEUE] + [Locked(["a"])] == [EMPTY_QUEUE, Locked(["a"])];
    LeadsOn(TWO_CPUS, env, Start(), s2, FirstCommit(2));
  }

  /** Releasing the only pod, whatever it is charged by now. */
  lemma FirstRelease(env: Environment, n: nat)
    requires Leads(TWO_CPUS, env, Start(), FirstCommit(n))
    ensures Leads(TWO_CPUS, env, Start(), FirstCommit(n).(pods := map["a" := Ungated(n)], gate := Releasing([])))
  {
    var s0 := FirstCommit(n);
    assert ["a"] == ["a"] + [];
    Releases(TWO_CPUS, env, s0, "a", [], n);
    assert s0.pods["a" := Ungated(n)] == map["a" := Ungated(n)];
    LeadsOn(TWO_CPUS, env, Start(), s0, s0.(pods := map["a" := Ungated(n)], gate := Releasing([])));
  }

  lemma ReachesReusedName(env: Environment)
    requires env.podsDeleted && env.namesReused
    ensures Leads(TWO_CPUS, env, Start(), FirstCommit(5))
  {
    ReachesFirstCommit(env);
    Disappears(TWO_CPUS, env, FirstCommit(2), "a");
    var s1 := FirstCommit(2).(pods := map[], podCache := map[]);
    assert map["a" := Gated(2)] - {"a"} == map[];
    LeadsOn(TWO_CPUS, env, Start(), FirstCommit(2), s1);
    Arrives(TWO_CPUS, env, s1, "a", 5);
    assert {"a"} + {"a"} == {"a"} && s1.pods["a" := Gated(5)] == map["a" := Gated(5)];
    LeadsOn(TWO_CPUS, env, Start(), s1, FirstCommit(5));
  }

  /** A name that is used again is released as if it were the pod the batch had accepted. */
  lemma ReusedNamesExceed(env: Environment)
    requires env.podsDeleted && env.namesReused
    ensures !AlwaysWithinLimits(env)
  {
    ReachesReusedName(env);
    FirstRelease(env, 5);
    var end := FirstCommit(5).(pods := map["a" := Ungated(5)], gate := Releasing([]));
    UsageOfTwo(end.pods, "a", "b");
    AboveLimit(env, end);
  }

  /** A second batch decided on usage recorded before the first one. */
  function SecondCommit(used: int): State {
    State(map["a" := Ungated(2), "b" := Gated(2)], map["a" := Ungated(2), "b" := Gated(2)], {"a", "b"},
          Used(used), Used(0),
          [EMPTY_QUEUE, Locked(["a"]), Unlocked(["a"]), Locked(["b"])], Releasing(["b"]), Resting1())
  }

  function FirstRoundOver(used: int): State {
    State(map["a" := Ungated(2)], map["a" := Ungated(2)], {"a"}, Used(used), Used(0),
          [EMPTY_QUEUE, Locked(["a"]), Unlocked(["a"])], Idle, Resting1())
  }

  lemma ReachesFirstRelease(env: Environment)
    ensures Leads(TWO_CPUS, env, Start(),
                  FirstCommit(2).(pods := map["a" := Ungated(2)], podCache := map["a" := Ungated(2)], gate := Idle))
  {
    ReachesFirstCommit(env);
    FirstRelease(env, 2);
    var s1 := FirstCommit(2).(pods := map["a" := Ungated(2)], gate := Releasing([]));
    Stops(TWO_CPUS, env, s1);
    var s2 := s1.(gate := Idle);
    LeadsOn(TWO_CPUS, env, Start(), s1, s2);
    ObservesPod(TWO_CPUS, env, s2, "a", 2);
    assert s2.podCache["a" := Ungated(2)] == map["a" := Ungated(2)];
    LeadsOn(TWO_CPUS, env, Start(), s2, s2.(podCache := map["a" := Ungated(2)]));
  }

  lemma ReachesFirstRoundOver(env: Environment)
    ensures Leads(TWO_CPUS, env, Start(), FirstRoundOver(2))
  {
    ReachesFirstRelease(env);
    var s := FirstCommit(2).(pods := map["a" := Ungated(2)], podCache := map["a" := Ungated(2)], gate := Idle);
    UsageOfTwo(s.podCache, "a", "b");
    Unlocks(env, s, 1, ["a"], 2);
    assert [EMPTY_QUEUE, Locked(["a"])] + [Unlocked(["a"])] == FirstRoundOver(2).history;
    LeadsOn(TWO_CPUS, env, Start(), s, FirstRoundOver(2));
  }

  function SecondArrival(): State {
    SecondCommit(2).(history := FirstRoundOver(2).history, gate := Idle)
  }

  lemma ReachesSecondArrival(env: Environment)
    ensures Leads(TWO_CPUS, env, Start(), SecondArrival())
  {
    ReachesFirstRoundOver(env);
    var s := FirstRoundOver(2);
    Arrives(TWO_CPUS, env, s, "b", 2);
    assert s.pods["b" := Gated(2)] == SecondArrival().pods && {"a"} + {"b"} == {"a", "b"};
    LeadsOn(TWO_CPUS, env, Start(), s, SecondArrival());
  }

  lemma ReachesSecondCommit(env: Environment)
    requires env.quotaCacheLags
    ensures Leads(TWO_CPUS, env, Start(), SecondCommit(2))
  {
    ReachesSecondArrival(env);
    var s := SecondArrival();
    OffersSecond(s.podCache, "a", "b");
    AdmitsOne(s.podCache, ["a", "b"], "b");
    Commits(TWO_CPUS, env, s, 2, ["a", "b"], {}, ["b"]);
    assert s.history + [Locked(["b"])] == SecondCommit(2).history;
    LeadsOn(TWO_CPUS, env, Start(), s, SecondCommit(2));
  }

  /** A listing of a released and a gated pod. */
  lemma OffersSecond(pods: Pods, first: string, second: string)
    requires first in pods && second in pods && pods[first] == Ungated(2) && pods[second] == Gated(2)
    ensures Offered(TWO_CPUS, {}, pods, [first, second]) == [Ask(second, 2)]
  {
    assert [first, second][1..] == [second];
    OffersOne(pods, second, 2);
  }

  /** The gate acts on recorded usage from before the last round and admits a pod too many. */
  lemma OutdatedUsageExceeds(env: Environment)
    requires env.quotaCacheLags
    ensures !AlwaysWithinLimits(env)
  {
    ReachesSecondCommit(env);
    SecondReleaseExceeds(env, SecondCommit(2), "a", "b");
  }

  lemma SecondReleaseExceeds(env: Environment, s: State, first: string, second: string)
    requires Leads(TWO_CPUS, env, Start(), s) && first != second
    requires s.gate == Releasing([second]) && s.pods == s.podCache == map[first := Ungated(2), second := Gated(2)]
    ensures !AlwaysWithinLimits(env)
  {
    assert [second] == [second] + [];
    Releases(TWO_CPUS, env, s, second, [], 2);
    var end := s.(pods := map[first := Ungated(2), second := Ungated(2)], gate := Releasing([]));
    assert s.pods[second := Ungated(2)] == end.pods;
    LeadsOn(TWO_CPUS, env, Start(), s, end);
    UsageOfTwo(end.pods, first, second);
    AboveLimit(env, end);
  }

  // ---------------------------------------------------------------- two pods in one batch

  function Pair(m: nat, n: nat): Pods {
    map["a" := Gated(m), "b" := Gated(n)]
  }

  /** Both pods arrive and are committed as one queue. */
  function PairCommit(m: nat, n: nat): State {
    State(Pair(m, n), Pair(m, n), {"a", "b"}, Used(0), Used(0),
          [EMPTY_QUEUE, Locked(["a", "b"])], Releasing(["a", "b"]), Resting1())
  }

  lemma ReachesPair(env: Environment, m: nat, n: nat)
    ensures Leads(TWO_CPUS, env, Start(), PairCommit(m, n).(history := [EMPTY_QUEUE], gate := Idle))
  {
    Arrives(TWO_CPUS, env, Start(), "a", m);
    var s1 := Start().(pods := map["a" := Gated(m)], podCache := map["a" := Gated(m)], created := {"a"});
    assert Start().pods["a" := Gated(m)] == s1.pods && {} + {"a"} == {"a"};
    Arrives(TWO_CPUS, env, s1, "b", n);
    var s2 := s1.(pods := Pair(m, n), podCache := Pair(m, n), created := {"a", "b"});
    assert s1.pods["b" := Gated(n)] == Pair(m, n) && {"a"} + {"b"} == {"a", "b"};
    LeadsOn(TWO_CPUS, env, Start(), s1, s2);
    CreatesQueue(TWO_CPUS, env, s2);
    LeadsOn(TWO_CPUS, env, Start(), s2, PairCommit(m, n).(history := [EMPTY_QUEUE], gate := Idle));
  }

  lemma OffersPair(m: nat, n: nat)
    ensures Offered(TWO_CPUS, {}, Pair(m, n), ["a", "b"]) == [Ask("a", m), Ask("b", n)]
  {
    var listing := ["a", "b"];
    assert listing[1..] == ["b"];
    OffersOne(Pair(m, n), "b", n);
    OffersOne(Pair(m, n), "a", m);
  }

  lemma CommitsPair(env: Environment, m: nat, n: nat)
    requires Admission.Names(DecideBatch(TWO_CPUS, {}, Used(0), Pair(m, n), ["a", "b"]).accepted) == ["a", "b"]
    ensures Leads(TWO_CPUS, env, PairCommit(m, n).(history := [EMPTY_QUEUE], gate := Idle), PairCommit(m, n))
  {
    var s := PairCommit(m, n).(history := [EMPTY_QUEUE], gate := Idle);
    Commits(TWO_CPUS, env, s, 0, ["a", "b"], {}, ["a", "b"]);
    assert s.history + [Locked(["a", "b"])] == PairCommit(m, n).history;
  }

  lemma ReachesPairCommit(env: Environment, m: nat, n: nat)
    requires Admission.Names(DecideBatch(TWO_CPUS, {}, Used(0), Pair(m, n), ["a", "b"]).accepted) == ["a", "b"]
    ensures Leads(TWO_CPUS, env, Start(), PairCommit(m, n))
  {
    ReachesPair(env, m, n);
    CommitsPair(env, m, n);
    LeadsOn(TWO_CPUS, env, Start(), PairCommit(m, n).(history := [EMPTY_QUEUE], gate := Idle), PairCommit(m, n));
  }

  /** The first of the two is released. */
  lemma ReachesHalfReleased(env: Environment, m: nat, n: nat)
    requires Leads(TWO_CPUS, env, Start(), PairCommit(m, n))
    ensures Leads(TWO_CPUS, env, Start(),
                  PairCommit(m, n).(pods := map["a" := Ungated(m), "b" := Gated(n)], gate := Releasing(["b"])))
  {
    var s0 := PairCommit(m, n);
    assert ["a", "b"] == ["a"] + ["b"];
    Releases(TWO_CPUS, env, s0, "a", ["b"], m);
    var s1 := s0.(pods := map["a" := Ungated(m), "b" := Gated(n)], gate := Releasing(["b"]));
    assert s0.pods["a" := Ungated(m)] == s1.pods;
    LeadsOn(TWO_CPUS, env, Start(), s0, s1);
  }

  // ---------------------------------------------------------------- lag together with deletion

  /** Both pods are released, "a" is deleted, and the cache has only noticed the deletion. */
  function HalfSeen(): State {
    PairCommit(0, 2).(pods := map["b" := Ungated(2)], podCache := map["b" := Gated(2)], gate := Idle)
  }

  function PairReleased(): State {
    PairCommit(0, 2).(pods := map["a" := Ungated(0), "b" := Ungated(2)], gate := Releasing([]))
  }

  lemma ReachesFreeAndTwo(env: Environment)
    ensures Leads(TWO_CPUS, env, Start(), PairCommit(0, 2))
  {
    OffersPair(0, 2);
    AdmitsFreeAndTwo(Pair(0, 2), ["a", "b"], "a", "b");
    ReachesPairCommit(env, 0, 2);
  }

  lemma ReachesPairReleased(env: Environment)
    requires env.podCacheLags
    ensures Leads(TWO_CPUS, env, Start(), PairReleased())
  {
    ReachesFreeAndTwo(env);
    ReachesHalfReleased(env, 0, 2);
    var s1 := PairCommit(0, 2).(pods := map["a" := Ungated(0), "b" := Gated(2)], gate := Releasing(["b"]));
    assert ["b"] == ["b"] + [];
    Releases(TWO_CPUS, env, s1, "b", [], 2);
    assert s1.pods["b" := Ungated(2)] == PairReleased().pods;
    LeadsOn(TWO_CPUS, env, Start(), s1, PairReleased());
  }

  lemma ReachesPairIdle(env: Environment)
    requires env.podCacheLags
    ensures Leads(TWO_CPUS, env, Start(), PairReleased().(gate := Idle))
  {
    ReachesPairReleased(env);
    Stops(TWO_CPUS, env, PairReleased());
    LeadsOn(TWO_CPUS, env, Start(), PairReleased(), PairReleased().(gate := Idle));
  }

  lemma ReachesHalfSeen(env: Environment)
    requires env.podCacheLags && env.podsDeleted
    ensures Leads(TWO_CPUS, env, Start(), HalfSeen())
  {
    ReachesPairIdle(env);
    var s := PairReleased().(gate := Idle);
    Disappears(TWO_CPUS, env, s, "a");
    assert s.pods - {"a"} == HalfSeen().pods && s.podCache - {"a"} == HalfSeen().podCache;
    LeadsOn(TWO_CPUS, env, Start(), s, HalfSeen());
  }

  /** The worker asks the API server because its cache misses "a", learns that nothing is
      gated any more, and then recounts from the cache, which still shows "b" gated. */
  function Undercounted(): State {
    State(map["b" := Ungated(2)], map["b" := Ungated(2)], {"a", "b"}, Used(0), Used(0),
          [EMPTY_QUEUE, Locked(["a", "b"]), Unlocked(["a", "b"])], Idle, Resting1())
  }

  lemma ReachesHalfSeenUnlocked(env: Environment)
    requires env.podCacheLags && env.podsDeleted
    ensures Leads(TWO_CPUS, env, Start(), HalfSeen().(history := Undercounted().history))
  {
    ReachesHalfSeen(env);
    var s := HalfSeen();
    UsageOfTwo(s.podCache, "a", "b");
    Unlocks(env, s, 1, ["a", "b"], 0);
    assert s.history + [Unlocked(["a", "b"])] == Undercounted().history;
    LeadsOn(TWO_CPUS, env, Start(), s, s.(history := Undercounted().history));
  }

  lemma ReachesUndercounted(env: Environment)
    requires env.podCacheLags && env.podsDeleted
    ensures Leads(TWO_CPUS, env, Start(), Undercounted())
  {
    ReachesHalfSeenUnlocked(env);
    var s1 := HalfSeen().(history := Undercounted().history);
    ObservesPod(TWO_CPUS, env, s1, "b", 2);
    assert s1.podCache["b" := Ungated(2)] == Undercounted().podCache;
    LeadsOn(TWO_CPUS, env, Start(), s1, Undercounted());
  }

  lemma LagWithDeletionExceeds(env: Environment)
    requires env.podCacheLags && env.podsDeleted
    ensures !AlwaysWithinLimits(env)
  {
    ReachesUndercounted(env);
    var s0 := Undercounted();
    Arrives(TWO_CPUS, env, s0, "c", 2);
    var both := map["b" := Ungated(2), "c" := Gated(2)];
    var s1 := s0.(pods := both, podCache := both, created := {"a", "b", "c"});
    assert s0.pods["c" := Gated(2)] == both && {"a", "b"} + {"c"} == {"a", "b", "c"};
    LeadsOn(TWO_CPUS, env, Start(), s0, s1);
    var listing := ["b", "c"];
    OffersSecond(both, "b", "c");
    AdmitsOne(both, listing, "c");
    Commits(TWO_CPUS, env, s1, 2, listing, {}, ["c"]);
    var s2 := s1.(gate := Releasing(["c"]), history := s1.history + [Locked(["c"])]);
    LeadsOn(TWO_CPUS, env, Start(), s1, s2);
    SecondReleaseExceeds(env, s2, "b", "c");
  }

  // ---------------------------------------------------------------- a skipped write

  /** States of the last scenario: pods are seen as they are, and the queue is "a" and "b". */
  function Seen1(pods: Pods, used: int, cached: int, gate: Gate): State {
    State(pods, pods, {"a", "b"}, Used(used), Used(cached), [EMPTY_QUEUE, Locked(["a", "b"])], gate, Resting1())
  }

  /** The first of two one-cpu pods leaves room for the second. */
  lemma OneLeavesRoom() returns (after: seq<Admission.Quota>)
    ensures Admission.CheckRequest({"cpu"}, GateQuotas(TWO_CPUS, Used(0)), Ask("a", 1).request) == Some(after)
    ensures Admission.CheckRequest({"cpu"}, after, Ask("b", 1).request).Some?
  {
    var quotas := GateQuotas(TWO_CPUS, Used(0));
    var request := Ask("a", 1).request;
    assert Admission.Accepts({"cpu"}, quotas, request);
    after := Admission.CheckRequest({"cpu"}, quotas, request).value;
    Admission.CheckRequestContract({"cpu"}, quotas, request);
    assert quotas[0] == Admission.Quota(map["cpu" := 2], map["cpu" := 0]) && "cpu" in quotas[0].hard.Keys * {"cpu"};
    assert Admission.Charge({"cpu"}, quotas[0], 0, request, "cpu") == 1;
    RoomForOne(after);
  }

  lemma RoomForOne(quotas: seq<Admission.Quota>)
    requires |quotas| == 1 && quotas[0].hard == map["cpu" := 2]
    requires "cpu" in quotas[0].used && quotas[0].used["cpu"] == 1
    ensures Admission.CheckRequest({"cpu"}, quotas, Ask("b", 1).request).Some?
  {
    assert Admission.Accepts({"cpu"}, quotas, Ask("b", 1).request);
  }

  lemma AdmitsTwoOnes()
    ensures Admission.Names(DecideBatch(TWO_CPUS, {}, Used(0), Pair(1, 1), ["a", "b"]).accepted) == ["a", "b"]
  {
    OffersPair(1, 1);
    var quotas := GateQuotas(TWO_CPUS, Used(0));
    var offered := [Ask("a", 1), Ask("b", 1)];
    assert offered[..1] == [Ask("a", 1)] && offered[..1][..0] == [];
    var after := OneLeavesRoom();
    assert Admission.Greedy({"cpu"}, quotas, offered[..1]) == Admission.Batch([Ask("a", 1)], after);
    assert Admission.Greedy({"cpu"}, quotas, offered).accepted == [Ask("a", 1), Ask("b", 1)];
  }

  /** A sync outside of any round. */
  lemma RecordsInBackground(env: Environment, s: State, n: int)
    requires |s.used| == 1 && PodsReadable(env, s) && Usage(s.podCache, 0, "cpu") == n
    ensures Leads(TWO_CPUS, env, s, s.(used := Used(n)))
  {
    LeadsHere(TWO_CPUS, env, s);
    var sync := BackgroundSync(0, map["cpu" := n], false);
    assert Recounts(TWO_CPUS, s.podCache, 0, map["cpu" := n]);
    assert Can(TWO_CPUS, env, s, sync);
    LeadsStep(TWO_CPUS, env, s, s, sync);
    assert s.used[0 := map["cpu" := n]] == Used(n);
  }

  lemma ObservesUsage(env: Environment, s: State, n: int)
    requires s.used == Used(n) && |s.usedCache| == 1
    ensures Leads(TWO_CPUS, env, s, s.(usedCache := Used(n)))
  {
    LeadsHere(TWO_CPUS, env, s);
    assert Can(TWO_CPUS, env, s, ObserveQuota(0));
    LeadsStep(TWO_CPUS, env, s, s, ObserveQuota(0));
    assert s.usedCache[0 := s.used[0]] == Used(n);
  }

  lemma FinishedIsFree(n: int)
    ensures ChargeOf(Finished(n), 0, "cpu") == 0
  {
    assert "cpu" != OBJECT_COUNT by {
      assert |"cpu"| == 3 && |OBJECT_COUNT| == 10;
    }
  }

  lemma ReachesOnesHalfReleased(env: Environment)
    ensures Leads(TWO_CPUS, env, Start(),
                  PairCommit(1, 1).(pods := map["a" := Ungated(1), "b" := Gated(1)], gate := Releasing(["b"])))
  {
    AdmitsTwoOnes();
    ReachesPairCommit(env, 1, 1);
    ReachesHalfReleased(env, 1, 1);
  }

  /** "a" is released and seen. */
  lemma ReachesFirstSeen(env: Environment)
    ensures Leads(TWO_CPUS, env, Start(), Seen1(map["a" := Ungated(1), "b" := Gated(1)], 0, 0, Releasing(["b"])))
  {
    ReachesOnesHalfReleased(env);
    var pods := map["a" := Ungated(1), "b" := Gated(1)];
    var s1 := PairCommit(1, 1).(pods := pods, gate := Releasing(["b"]));
    ObservesPod(TWO_CPUS, env, s1, "a", 1);
    assert s1.podCache["a" := Ungated(1)] == pods;
    LeadsOn(TWO_CPUS, env, Start(), s1, Seen1(pods, 0, 0, Releasing(["b"])));
  }

  /** Its usage is recorded and seen by the syncs. */
  lemma ReachesRecorded(env: Environment)
    ensures Leads(TWO_CPUS, env, Start(), Seen1(map["a" := Ungated(1), "b" := Gated(1)], 1, 1, Releasing(["b"])))
  {
    ReachesFirstSeen(env);
    var pods := map["a" := Ungated(1), "b" := Gated(1)];
    var s1 := Seen1(pods, 0, 0, Releasing(["b"]));
    UsageOfTwo(pods, "a", "b");
    RecordsInBackground(env, s1, 1);
    var s2 := Seen1(pods, 1, 0, Releasing(["b"]));
    LeadsOn(TWO_CPUS, env, Start(), s1, s2);
    ObservesUsage(env, s2, 1);
    LeadsOn(TWO_CPUS, env, Start(), s2, Seen1(pods, 1, 1, Releasing(["b"])));
  }

  /** "a" finishes, and a sync records that, unseen by the next one. */
  lemma ReachesOutdated(env: Environment)
    ensures Leads(TWO_CPUS, env, Start(), Seen1(map["a" := Finished(1), "b" := Gated(1)], 0, 1, Releasing(["b"])))
  {
    ReachesRecorded(env);
    var s1 := Seen1(map["a" := Ungated(1), "b" := Gated(1)], 1, 1, Releasing(["b"]));
    var pods := map["a" := Finished(1), "b" := Gated(1)];
    Finishes(TWO_CPUS, env, s1, "a", 1);
    assert s1.pods["a" := Finished(1)] == pods;
    var s2 := Seen1(pods, 1, 1, Releasing(["b"]));
    LeadsOn(TWO_CPUS, env, Start(), s1, s2);
    UsageOfTwo(pods, "a", "b");
    FinishedIsFree(1);
    RecordsInBackground(env, s2, 0);
    LeadsOn(TWO_CPUS, env, Start(), s2, Seen1(pods, 0, 1, Releasing(["b"])));
  }

  /** "b" is released: the namespace uses one cpu, as it did when the syncs last looked. */
  lemma ReachesSameUsage(env: Environment)
    ensures Leads(TWO_CPUS, env, Start(), Seen1(map["a" := Finished(1), "b" := Ungated(1)], 0, 1, Idle))
  {
    ReachesOutdated(env);
    var before := map["a" := Finished(1), "b" := Gated(1)];
    var pods := map["a" := Finished(1), "b" := Ungated(1)];
    var s1 := Seen1(before, 0, 1, Releasing(["b"]));
    assert ["b"] == ["b"] + [] && before["b" := Ungated(1)] == pods;
    Releases(TWO_CPUS, env, s1, "b", [], 1);
    var s2 := s1.(pods := pods, gate := Releasing([]));
    LeadsOn(TWO_CPUS, env, Start(), s1, s2);
    Stops(TWO_CPUS, env, s2);
    var s3 := s2.(gate := Idle);
    LeadsOn(TWO_CPUS, env, Start(), s2, s3);
    ObservesPod(TWO_CPUS, env, s3, "b", 1);
    LeadsOn(TWO_CPUS, env, Start(), s3, Seen1(pods, 0, 1, Idle));
  }

  /** The worker's recount equals the outdated record it compares with, so it writes nothing,
      and clears the lock with the usage of "b" unrecorded. */
  lemma ReachesUnrecorded(env: Environment)
    requires env.syncCacheLags
    ensures var pods := map["a" := Finished(1), "b" := Ungated(1)];
            Leads(TWO_CPUS, env, Start(),
                  Seen1(pods, 0, 1, Idle).(history := [EMPTY_QUEUE, Locked(["a", "b"]), Unlocked(["a", "b"])]))
  {
    ReachesSameUsage(env);
    var pods := map["a" := Finished(1), "b" := Ungated(1)];
    var queue := ["a", "b"];
    var s1 := Seen1(pods, 0, 1, Idle);
    assert queue[1..] == ["b"] && ["b"][1..] == [];
    assert Verified(pods, pods, queue);
    Verifies(env, s1, 1, queue);
    var s2 := s1.(workers := map[ArqLock := Syncing(Some(1), {0})]);
    LeadsOn(TWO_CPUS, env, Start(), s1, s2);
    UsageOfTwo(pods, "a", "b");
    FinishedIsFree(1);
    Skips(env, s2, 1, 1);
    var s3 := s2.(workers := map[ArqLock := Syncing(Some(1), {})]);
    LeadsOn(TWO_CPUS, env, Start(), s2, s3);
    Clears(env, s3, 1, queue);
    assert s3.history + [Unlocked(queue)] == [EMPTY_QUEUE, Locked(queue), Unlocked(queue)];
    LeadsOn(TWO_CPUS, env, Start(), s3, s1.(history := [EMPTY_QUEUE, Locked(queue), Unlocked(queue)]));
  }

  lemma Skips(env: Environment, s: State, version: nat, n: int)
    requires env.syncCacheLags && s.workers == map[ArqLock := Syncing(Some(version), {0})]
    requires s.usedCache == Used(n) && PodsReadable(env, s) && Usage(s.podCache, 0, "cpu") == n
    ensures Leads(TWO_CPUS, env, s, s.(workers := map[ArqLock := Syncing(Some(version), {})]))
  {
    LeadsHere(TWO_CPUS, env, s);
    assert Recounts(TWO_CPUS, s.podCache, 0, map["cpu" := n]);
    assert Can(TWO_CPUS, env, s, WorkerSkip(ArqLock, 0));
    LeadsStep(TWO_CPUS, env, s, s, WorkerSkip(ArqLock, 0));
    assert {0} - {0} == {};
    assert s.workers[ArqLock := Syncing(Some(version), {})] == map[ArqLock := Syncing(Some(version), {})];
  }

  /** What the gate needs to admit two more cpus. */
  function ThirdArrival(): State {
    var pods := map["a" := Finished(1), "b" := Ungated(1), "c" := Gated(2)];
    State(pods, pods, {"a", "b", "c"}, Used(0), Used(0),
          [EMPTY_QUEUE, Locked(["a", "b"]), Unlocked(["a", "b"])], Idle, Resting1())
  }

  lemma ReachesThirdArrival(env: Environment)
    requires env.syncCacheLags
    ensures Leads(TWO_CPUS, env, Start(), ThirdArrival())
  {
    ReachesUnrecorded(env);
    var pods := map["a" := Finished(1), "b" := Ungated(1)];
    var s1 := Seen1(pods, 0, 1, Idle).(history := ThirdArrival().history);
    ObservesUsage(env, s1, 0);
    var s2 := s1.(usedCache := Used(0));
    LeadsOn(TWO_CPUS, env, Start(), s1, s2);
    Arrives(TWO_CPUS, env, s2, "c", 2);
    assert pods["c" := Gated(2)] == ThirdArrival().pods && {"a", "b"} + {"c"} == {"a", "b", "c"};
    LeadsOn(TWO_CPUS, env, Start(), s2, ThirdArrival());
  }

  lemma UsageOfThree(pods: Pods)
    requires pods.Keys == {"a", "b", "c"}
    ensures Usage(pods, 0, "cpu")
         == ChargeIfUngated(pods["a"]) + ChargeIfUngated(pods["b"]) + ChargeIfUngated(pods["c"])
  {
    var rest := pods - {"c"};
    assert rest.Keys == {"a", "b"};
    UsageOfTwo(rest, "a", "b");
    TotalChange(Contributions(rest, {}, 0, "cpu"), Contributions(pods, {}, 0, "cpu"), "c");
  }

  function ChargeIfUngated(pod: Pod): int {
    if pod.gates == [] then ChargeOf(pod, 0, "cpu") else 0
  }

  lemma ReachesThirdCommit(env: Environment)
    requires env.syncCacheLags
    ensures Leads(TWO_CPUS, env, Start(),
                  ThirdArrival().(gate := Releasing(["c"]), history := ThirdArrival().history + [Locked(["c"])]))
  {
    ReachesThirdArrival(env);
    var s := ThirdArrival();
    var listing := ["a", "b", "c"];
    OffersThird();
    AdmitsOne(s.podCache, listing, "c");
    Commits(TWO_CPUS, env, s, 2, listing, {}, ["c"]);
    LeadsOn(TWO_CPUS, env, Start(), s, s.(gate := Releasing(["c"]), history := s.history + [Locked(["c"])]));
  }

  /** A sync that compares with outdated recorded usage and skips its write leaves too little
      recorded, and the gate admits a pod too many. */
  lemma SkippedWriteExceeds(env: Environment)
    requires env.syncCacheLags
    ensures !AlwaysWithinLimits(env)
  {
    ReachesThirdCommit(env);
    var s := ThirdArrival().(gate := Releasing(["c"]), history := ThirdArrival().history + [Locked(["c"])]);
    assert ["c"] == ["c"] + [];
    Releases(TWO_CPUS, env, s, "c", [], 2);
    var end := s.(pods := s.pods["c" := Ungated(2)], gate := Releasing([]));
    LeadsOn(TWO_CPUS, env, Start(), s, end);
    UsageOfThree(end.pods);
    FinishedIsFree(1);
    AboveLimit(env, end);
  }

  lemma OffersThird()
    ensures Offered(TWO_CPUS, {}, ThirdArrival().podCache, ["a", "b", "c"]) == [Ask("c", 2)]
  {
    var pods := ThirdArrival().podCache;
    assert ["a", "b", "c"][1..] == ["b", "c"] && ["b", "c"][1..] == ["c"];
    OffersOne(pods, "c", 2);
    assert Offered(TWO_CPUS, {}, pods, ["b", "c"]) == [Ask("c", 2)];
  }

  // ---------------------------------------------------------------- the exact condition

  /** Hard limits hold in every run of every namespace exactly when the gate controller
      reads up-to-date usage, syncs compare with up-to-date usage, the gate and the ACRQ
      controller know every cluster quota of the namespace and, if pods can be deleted, pods
      are read up to date and names are never used twice. */
  lemma SafeExactlyWhenBenign(env: Environment)
    ensures AlwaysWithinLimits(env) <==> Benign(env)
  {
    if Benign(env) {
      HandshakeIsSafe(env);
    } else if env.quotaCacheLags {
      OutdatedUsageExceeds(env);
    } else if env.syncCacheLags {
      SkippedWriteExceeds(env);
    } else if env.gateMapperLags {
      HandshakeMapper.UnknownQuotaExceeds(env);
    } else if env.syncMapperLags {
      HandshakeMapper.UnsyncedQuotaExceeds(env);
    } else if env.podCacheLags {
      LagWithDeletionExceeds(env);
    } else {
      ReusedNamesExceed(env);
    }
  }
}
