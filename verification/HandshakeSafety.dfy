/** The handshake never lets the ungated pods exceed a hard limit: the invariant of every
    reachable state, kept by every step. */
module HandshakeSafety {
  import opened Resources
  import opened Handshake
  import Admission

  /** The environments the handshake is safe in. */
  predicate Benign(env: Environment) {
    && !env.quotaCacheLags && !env.syncCacheLags && !env.gateMapperLags && !env.syncMapperLags
    && (env.podsDeleted ==> !env.podCacheLags && !env.namesReused)
  }

  // ---------------------------------------------------------------- vocabulary

  type History = seq<JobQueue>
  type Workers = map<Lock, Worker>

  function QueueSet(queue: seq<string>): set<string> {
    set name | name in queue
  }

  /** Released or gone. */
  predicate Settled(pods: Pods, name: string) {
    name !in pods || pods[name].gates == []
  }

  predicate Seen(podCache: Pods, name: string) {
    name in podCache && podCache[name].gates == []
  }

  /** The lock's controller has verified the current queue and is syncing its quotas. */
  predicate Verifying(history: History, workers: Workers, lock: Lock) {
    && lock in workers && workers[lock].Syncing? && workers[lock].unlock.Some?
    && IsCurrent(history, workers[lock].unlock.value)
  }

  /** The lock is clear, or its controller has verified the current queue. */
  predicate Quiet(history: History, workers: Workers, lock: Lock) {
    !Held(Current(history), lock) || Verifying(history, workers, lock)
  }

  predicate Done(workers: Workers, lock: Lock, i: nat) {
    lock in workers && workers[lock].Syncing? && i !in workers[lock].todo
  }

  /** The recorded usage of quota i must cover the ungated pods. */
  predicate MustCover(cl: Cluster, history: History, workers: Workers, i: nat) {
    && i < |cl.quotas|
    && var lock := cl.quotas[i].lock;
       !Held(Current(history), lock) || (Verifying(history, workers, lock) && Done(workers, lock, i))
  }

  predicate Governs(cl: Cluster, i: nat, r: string) {
    i < |cl.quotas| && r in cl.quotas[i].hard && Metered(cl, r)
  }

  // ---------------------------------------------------------------- the invariant

  ghost predicate Shape(cl: Cluster, s: State) {
    && WellFormed(cl)
    && |s.used| == |s.usedCache| == |cl.quotas|
    && (forall lock: Lock :: lock in s.workers <==> Enabled(cl, lock))
  }

  ghost predicate PodsOk(env: Environment, pods: Pods, podCache: Pods, created: set<string>) {
    && pods.Keys <= created
    && (forall name | name in pods ::
          && Admission.NonNegative(pods[name].usage)
          && (pods[name].gates != [] ==> AAQ_GATE in pods[name].gates))
    && (forall name | name in pods && name in podCache :: Follows(podCache[name], pods[name]))
    && podCache.Keys <= created
    && (!env.podsDeleted ==> podCache.Keys <= pods.Keys && created <= pods.Keys)
  }

  predicate Known(env: Environment, podCache: Pods, created: set<string>, name: string) {
    name in created && (!env.podsDeleted ==> name in podCache)
  }

  /** Every queue ever committed: its pods are known, and those of past rounds are settled. */
  ghost predicate QueuesOk(env: Environment, pods: Pods, podCache: Pods, created: set<string>, history: History) {
    forall v: nat, name | v < |history| && name in history[v].queue ::
      && Known(env, podCache, created, name)
      && (name in Current(history).queue || Settled(pods, name))
  }

  /** Once any enabled lock is quiet the current queue is settled and every ungated pod has
      been seen ungated. */
  ghost predicate RoundOk(cl: Cluster, pods: Pods, podCache: Pods, history: History, workers: Workers) {
    && (forall lock | Enabled(cl, lock) && Quiet(history, workers, lock) ::
          QueueSettled(pods, Current(history).queue) && AllSeen(pods, podCache))
    && (forall name | name in pods && pods[name].gates == [] ::
          name in Current(history).queue || Seen(podCache, name))
  }

  ghost predicate QueueSettled(pods: Pods, queue: seq<string>) {
    forall name | name in queue :: Settled(pods, name)
  }

  ghost predicate AllSeen(pods: Pods, podCache: Pods) {
    forall name | name in pods && pods[name].gates == [] :: Seen(podCache, name)
  }

  /** Recorded quantities cover the usage of the ungated pods in one quota. */
  ghost predicate Covers(cl: Cluster, pods: Pods, i: nat, recorded: ResourceList) {
    forall r | Governs(cl, i, r) :: Usage(pods, i, r) <= Get(recorded, r)
  }

  ghost predicate Covered(cl: Cluster, pods: Pods, used: seq<ResourceList>, history: History, workers: Workers) {
    forall i: nat | i < |used| && MustCover(cl, history, workers, i) :: Covers(cl, pods, i, used[i])
  }

  ghost predicate Bounded(cl: Cluster, pods: Pods, queue: seq<string>) {
    forall i: nat, r | Governs(cl, i, r) :: Reserved(pods, QueueSet(queue), i, r) <= cl.quotas[i].hard[r]
  }

  ghost predicate GateOk(cl: Cluster, env: Environment, pods: Pods, podCache: Pods, created: set<string>,
                         history: History, gate: Gate) {
    match gate
    case Idle => true
    case HasQuotas(version, snapshot) =>
      && |snapshot| == |cl.quotas| && version < |history| && Processed(cl, history[version])
      && (IsCurrent(history, version) ==> forall i: nat | i < |snapshot| :: Covers(cl, pods, i, snapshot[i]))
    case Chosen(version, queue) =>
      && version < |history| && Processed(cl, history[version])
      && (forall name | name in queue :: Known(env, podCache, created, name))
      && (IsCurrent(history, version) ==> Bounded(cl, pods, queue))
    case Releasing(names) => forall name | name in names :: Committed(history, name)
  }

  ghost predicate Committed(history: History, name: string) {
    exists v: nat :: v < |history| && name in history[v].queue
  }

  ghost predicate WorkersOk(history: History, workers: Workers) {
    forall lock | lock in workers && workers[lock].Syncing? && workers[lock].unlock.Some? ::
      workers[lock].unlock.value < |history| && Held(history[workers[lock].unlock.value], lock)
  }

  ghost predicate Inv(cl: Cluster, env: Environment, s: State) {
    && Shape(cl, s)
    && PodsOk(env, s.pods, s.podCache, s.created)
    && QueuesOk(env, s.pods, s.podCache, s.created, s.history)
    && RoundOk(cl, s.pods, s.podCache, s.history, s.workers)
    && Covered(cl, s.pods, s.used, s.history, s.workers)
    && Bounded(cl, s.pods, Current(s.history).queue)
    && GateOk(cl, env, s.pods, s.podCache, s.created, s.history, s.gate)
    && WorkersOk(s.history, s.workers)
  }

  // ---------------------------------------------------------------- sums

  lemma ReservedMonotone(pods: Pods, queue: set<string>, pods': Pods, queue': set<string>, i: nat, r: string)
    requires forall name :: Contribution(pods, queue, name, i, r) <= Contribution(pods', queue', name, i, r)
    ensures Reserved(pods, queue, i, r) <= Reserved(pods', queue', i, r)
  {
    TotalMonotone(Contributions(pods, queue, i, r), Contributions(pods', queue', i, r));
  }

  /** In every schedulable resource, what is reserved for the queue does not grow. */
  ghost predicate Lighter(pods: Pods, pods': Pods, queue: set<string>) {
    forall i: nat, r | IsSchedulable(r) :: Reserved(pods', queue, i, r) <= Reserved(pods, queue, i, r)
  }

  lemma FollowsCharge(earlier: Pod, later: Pod, i: nat, r: string)
    requires Follows(earlier, later) && IsSchedulable(r)
    requires Admission.NonNegative(later.usage)
    ensures 0 <= ChargeOf(later, i, r) <= ChargeOf(earlier, i, r)
  {
    assert r != OBJECT_COUNT by {
      assert OBJECT_COUNT[..1] == "c" && OBJECT_COUNT[..6] == "count/";
      assert "limits."[0] == 'l' && "requests."[0] == 'r';
    }
  }

  lemma UsageWithinReserved(pods: Pods, queue: set<string>, i: nat, r: string)
    requires IsSchedulable(r)
    requires forall name | name in pods :: Admission.NonNegative(pods[name].usage)
    ensures Usage(pods, i, r) <= Reserved(pods, queue, i, r)
  {
    forall name
      ensures Contribution(pods, {}, name, i, r) <= Contribution(pods, queue, name, i, r)
    {
      if name in pods {
        FollowsCharge(pods[name], pods[name], i, r);
      }
    }
    ReservedMonotone(pods, {}, pods, queue, i, r);
  }

  // ---------------------------------------------------------------- environment steps

  /** How the environment may change the pods: nothing gets ungated, and a pod that appears
      is new and gated. */
  ghost predicate Harmless(pods: Pods, created: set<string>, pods': Pods) {
    && (forall name | name in pods' && name !in pods :: name !in created && pods'[name].gates != [])
    && (forall name | name in pods' && name in pods ::
          && Follows(pods[name], pods'[name])
          && (pods'[name].gates == [] ==> pods[name].gates == []))
  }

  lemma HarmlessIsLighter(pods: Pods, created: set<string>, pods': Pods, queue: set<string>)
    requires Harmless(pods, created, pods') && queue <= created
    requires forall name | name in pods :: Admission.NonNegative(pods[name].usage)
    ensures Lighter(pods, pods', queue)
  {
    forall i: nat, r | IsSchedulable(r)
      ensures Reserved(pods', queue, i, r) <= Reserved(pods, queue, i, r)
    {
      forall name
        ensures Contribution(pods', queue, name, i, r) <= Contribution(pods, queue, name, i, r)
      {
        if name in pods' && name in pods {
          assert Admission.NonNegative(pods'[name].usage);
          FollowsCharge(pods[name], pods'[name], i, r);
        } else if name in pods {
          FollowsCharge(pods[name], pods[name], i, r);
        }
      }
      ReservedMonotone(pods', queue, pods, queue, i, r);
    }
  }

  lemma LighterBounded(cl: Cluster, pods: Pods, pods': Pods, queue: seq<string>)
    requires Bounded(cl, pods, queue) && Lighter(pods, pods', QueueSet(queue))
    ensures Bounded(cl, pods', queue)
  {
    forall i: nat, r | Governs(cl, i, r)
      ensures Reserved(pods', QueueSet(queue), i, r) <= cl.quotas[i].hard[r]
    {
      assert Reserved(pods', QueueSet(queue), i, r) <= Reserved(pods, QueueSet(queue), i, r);
    }
  }

  lemma LighterCovers(cl: Cluster, pods: Pods, pods': Pods)
    requires Lighter(pods, pods', {})
    ensures forall i: nat, recorded | Covers(cl, pods, i, recorded) :: Covers(cl, pods', i, recorded)
  {
    forall i: nat, recorded, r | Covers(cl, pods, i, recorded) && Governs(cl, i, r)
      ensures Usage(pods', i, r) <= Get(recorded, r)
    {
      assert Usage(pods', i, r) <= Usage(pods, i, r);
    }
  }

  lemma HarmlessKeepsGate(cl: Cluster, env: Environment, s: State, pods': Pods, created': set<string>)
    requires PodsOk(env, s.pods, s.podCache, s.created)
    requires GateOk(cl, env, s.pods, s.podCache, s.created, s.history, s.gate)
    requires Harmless(s.pods, s.created, pods') && s.created <= created'
    ensures GateOk(cl, env, pods', s.podCache, created', s.history, s.gate)
  {
    if s.gate.HasQuotas? {
      HarmlessIsLighter(s.pods, s.created, pods', {});
      LighterCovers(cl, s.pods, pods');
    } else if s.gate.Chosen? && IsCurrent(s.history, s.gate.version) {
      HarmlessIsLighter(s.pods, s.created, pods', QueueSet(s.gate.queue));
      LighterBounded(cl, s.pods, pods', s.gate.queue);
    }
  }

  lemma HarmlessKeepsQueues(cl: Cluster, env: Environment, s: State, pods': Pods, created': set<string>)
    requires QueuesOk(env, s.pods, s.podCache, s.created, s.history)
    requires RoundOk(cl, s.pods, s.podCache, s.history, s.workers)
    requires Harmless(s.pods, s.created, pods') && s.created <= created'
    ensures QueuesOk(env, pods', s.podCache, created', s.history)
    ensures RoundOk(cl, pods', s.podCache, s.history, s.workers)
    ensures QueueSet(Current(s.history).queue) <= s.created
  {
    forall name | name in s.created && Settled(s.pods, name)
      ensures Settled(pods', name)
    {
    }
    forall v: nat, name | v < |s.history| && name in s.history[v].queue
      ensures Known(env, s.podCache, created', name)
      ensures name in Current(s.history).queue || Settled(pods', name)
    {
      assert Known(env, s.podCache, s.created, name);
    }
    forall name | name in Current(s.history).queue
      ensures name in s.created
    {
      assert Known(env, s.podCache, s.created, name) by {
        assert name in s.history[|s.history| - 1].queue;
      }
    }
    forall lock | Enabled(cl, lock) && Quiet(s.history, s.workers, lock)
      ensures QueueSettled(pods', Current(s.history).queue) && AllSeen(pods', s.podCache)
    {
      assert QueueSettled(s.pods, Current(s.history).queue) && AllSeen(s.pods, s.podCache);
    }
  }

  lemma HarmlessKeepsInv(cl: Cluster, env: Environment, s: State, pods': Pods, created': set<string>)
    requires Inv(cl, env, s) && Harmless(s.pods, s.created, pods') && s.created <= created'
    requires PodsOk(env, pods', s.podCache, created')
    ensures Inv(cl, env, s.(pods := pods', created := created'))
  {
    HarmlessKeepsGate(cl, env, s, pods', created');
    HarmlessKeepsQueues(cl, env, s, pods', created');
    var queue := Current(s.history).queue;
    HarmlessIsLighter(s.pods, s.created, pods', QueueSet(queue));
    LighterBounded(cl, s.pods, pods', queue);
    HarmlessIsLighter(s.pods, s.created, pods', {});
    LighterCovers(cl, s.pods, pods');
    assert Covered(cl, pods', s.used, s.history, s.workers);
  }

  lemma CreationKeepsInv(cl: Cluster, env: Environment, s: State, name: string, pod: Pod)
    requires Benign(env) && Inv(cl, env, s) && Can(cl, env, s, CreatePod(name, pod))
    ensures Inv(cl, env, Do(cl, env, s, CreatePod(name, pod)))
  {
    assert name !in s.created;
    HarmlessKeepsInv(cl, env, s, s.pods[name := pod], s.created + {name});
  }

  lemma OtherGatesStay(gates: seq<string>, position: nat)
    requires position < |gates| && gates[position] != AAQ_GATE && AAQ_GATE in gates
    ensures var gates' := gates[..position] + gates[position + 1..];
            Subsumes(gates, gates') && AAQ_GATE in gates'
  {
    var gates' := gates[..position] + gates[position + 1..];
    var k :| 0 <= k < |gates| && gates[k] == AAQ_GATE;
    assert gates'[if k < position then k else k - 1] == AAQ_GATE;
  }

  lemma UngatingForeignKeepsInv(cl: Cluster, env: Environment, s: State, name: string, position: nat)
    requires Inv(cl, env, s) && Can(cl, env, s, RemoveForeignGate(name, position))
    ensures Inv(cl, env, Do(cl, env, s, RemoveForeignGate(name, position)))
  {
    var gates := s.pods[name].gates;
    var gates' := gates[..position] + gates[position + 1..];
    OtherGatesStay(gates, position);
    PodChangeKeepsInv(cl, env, s, name, s.pods[name].(gates := gates'));
  }

  /** One pod moves on without losing its last gate. */
  lemma PodChangeKeepsInv(cl: Cluster, env: Environment, s: State, name: string, pod: Pod)
    requires Inv(cl, env, s) && name in s.pods && Follows(s.pods[name], pod)
    requires pod.gates == [] <==> s.pods[name].gates == []
    requires pod.gates != [] ==> AAQ_GATE in pod.gates
    ensures Inv(cl, env, s.(pods := s.pods[name := pod]))
  {
    var pods' := s.pods[name := pod];
    forall n | n in pods' && n in s.podCache
      ensures Follows(s.podCache[n], pods'[n])
    {
      assert Follows(s.podCache[n], s.pods[n]);
    }
    assert s.pods.Keys == pods'.Keys;
    HarmlessKeepsInv(cl, env, s, pods', s.created);
  }

  lemma DeletionKeepsInv(cl: Cluster, env: Environment, s: State, name: string)
    requires Inv(cl, env, s) && Can(cl, env, s, DeletePod(name))
    ensures Inv(cl, env, Do(cl, env, s, DeletePod(name)))
  {
    HarmlessKeepsInv(cl, env, s, s.pods - {name}, s.created);
  }

  /** A cache that moves forward keeps what it had seen. */
  lemma CacheKeepsInv(cl: Cluster, env: Environment, s: State, podCache': Pods)
    requires Inv(cl, env, s) && PodsOk(env, s.pods, podCache', s.created)
    requires forall name | name in s.pods && Seen(s.podCache, name) :: Seen(podCache', name)
    requires !env.podsDeleted ==> s.podCache.Keys <= podCache'.Keys
    ensures Inv(cl, env, s.(podCache := podCache'))
  {
    forall lock | Enabled(cl, lock) && Quiet(s.history, s.workers, lock)
      ensures QueueSettled(s.pods, Current(s.history).queue) && AllSeen(s.pods, podCache')
    {
      assert AllSeen(s.pods, s.podCache);
    }
    assert forall name | Known(env, s.podCache, s.created, name) :: Known(env, podCache', s.created, name);
    forall v: nat, name | v < |s.history| && name in s.history[v].queue
      ensures Known(env, podCache', s.created, name)
    {
      assert Known(env, s.podCache, s.created, name);
    }
  }

  lemma ObservationKeepsInv(cl: Cluster, env: Environment, s: State, step: Step)
    requires Benign(env) && Inv(cl, env, s) && Can(cl, env, s, step)
    requires Observes(step)
    ensures Inv(cl, env, Do(cl, env, s, step))
  {
    match step {
      case ObservePod(name, view) =>
        CacheKeepsInv(cl, env, s, s.podCache[name := view]);
      case ForgetPod(name) => CacheKeepsInv(cl, env, s, s.podCache - {name});
      case ObserveQuota(i) =>
    }
  }

  // ---------------------------------------------------------------- gate steps

  lemma GateCreateKeepsInv(cl: Cluster, env: Environment, s: State)
    requires Inv(cl, env, s) && Can(cl, env, s, GateCreate)
    ensures Inv(cl, env, Do(cl, env, s, GateCreate))
  {
    var history' := [EMPTY_QUEUE];
    assert forall lock :: !Held(Current(s.history), lock) && !Held(Current(history'), lock);
    assert forall i: nat | MustCover(cl, history', s.workers, i) :: MustCover(cl, s.history, s.workers, i);
    assert Enabled(cl, ArqLock) && Quiet(s.history, s.workers, ArqLock);
    assert AllSeen(s.pods, s.podCache);
  }

  lemma GateReadKeepsInv(cl: Cluster, env: Environment, s: State, version: nat)
    requires Benign(env) && Inv(cl, env, s) && Can(cl, env, s, GateRead(version))
    ensures Inv(cl, env, Do(cl, env, s, GateRead(version)))
  {
    var jq := s.history[version];
    if jq.locks.Some? && !Processed(cl, jq) {
      forall name | name in jq.queue
        ensures Committed(s.history, name)
      {
      }
    } else {
      assert Processed(cl, jq);
      if IsCurrent(s.history, version) {
        forall i: nat | i < |s.usedCache|
          ensures Covers(cl, s.pods, i, s.usedCache[i])
        {
          assert Enabled(cl, cl.quotas[i].lock);
          assert MustCover(cl, s.history, s.workers, i);
        }
      }
    }
  }

  /** What a batch reserves: the pods it accepts, on top of the ungated ones, cost no more
      than the accepted requests. */
  lemma {:induction false} AcceptedReserve(cl: Cluster, pods: Pods, podCache: Pods, quota: Admission.Quota,
                                           accepted: seq<Admission.Candidate>, i: nat, r: string)
    requires Governs(cl, i, r) && quota.hard == cl.quotas[i].hard
    requires forall name | name in pods :: Admission.NonNegative(pods[name].usage)
    requires forall name | name in pods && name in podCache :: Follows(podCache[name], pods[name])
    requires forall c | c in accepted ::
               && c.name in podCache && Admission.NonNegative(c.request.usage)
               && c.request.usage == Effective(podCache[c.name])
               && (i in podCache[c.name].scopes ==> i in c.request.scopes)
    ensures Reserved(pods, QueueSet(Admission.Names(accepted)), i, r)
         <= Usage(pods, i, r) + Admission.ChargeAll(cl.tracked, quota, i, accepted, r)
  {
    if accepted == [] {
      assert QueueSet(Admission.Names(accepted)) == {};
    } else {
      var n := |accepted| - 1;
      var last := accepted[n];
      assert last in accepted;
      AcceptedReserve(cl, pods, podCache, quota, accepted[..n], i, r);
      var some, all := QueueSet(Admission.Names(accepted[..n])), QueueSet(Admission.Names(accepted));
      assert all == some + {last.name} by {
        assert Admission.Names(accepted) == Admission.Names(accepted[..n]) + [last.name];
      }
      TotalChange(Contributions(pods, some, i, r), Contributions(pods, all, i, r), last.name);
      assert Admission.Concerns(cl.tracked, quota, i, last.request) == (i in last.request.scopes) by {
        assert r in quota.hard.Keys * cl.tracked;
      }
      if last.name in pods {
        FollowsCharge(podCache[last.name], pods[last.name], i, r);
      }
    }
  }

  /** A batch decided on recorded usage that covers the ungated pods fits the limits. */
  lemma BatchFits(cl: Cluster, env: Environment, s: State, known: set<nat>, snapshot: seq<ResourceList>,
                  listing: seq<string>)
    requires Knows(cl, false, known)
    requires PodsOk(env, s.pods, s.podCache, s.created) && Bounded(cl, s.pods, Current(s.history).queue)
    requires |snapshot| == |cl.quotas| && forall i: nat | i < |snapshot| :: Covers(cl, s.pods, i, snapshot[i])
    requires Lists(s.podCache, listing)
    ensures Bounded(cl, s.pods, Admission.Names(DecideBatch(cl, known, snapshot, s.podCache, listing).accepted))
  {
    var quotas := GateQuotas(cl, snapshot);
    var offered := Offered(cl, known, s.podCache, listing);
    var accepted := Admission.Greedy(cl.tracked, quotas, offered).accepted;
    Admission.BatchLaw(cl.tracked, quotas, offered);
    forall i: nat, r | Governs(cl, i, r)
      ensures Reserved(s.pods, QueueSet(Admission.Names(accepted)), i, r) <= cl.quotas[i].hard[r]
    {
      AcceptedReserve(cl, s.pods, s.podCache, quotas[i], accepted, i, r);
      UsageWithinReserved(s.pods, QueueSet(Current(s.history).queue), i, r);
      assert Covers(cl, s.pods, i, snapshot[i]);
    }
  }

  lemma DecideKeepsInv(cl: Cluster, env: Environment, s: State, listing: seq<string>, known: set<nat>)
    requires Benign(env) && Inv(cl, env, s) && Can(cl, env, s, GateDecide(listing, known))
    ensures Inv(cl, env, Do(cl, env, s, GateDecide(listing, known)))
  {
    var accepted := DecideBatch(cl, known, s.gate.snapshot, s.podCache, listing).accepted;
    Admission.BatchLaw(cl.tracked, GateQuotas(cl, s.gate.snapshot), Offered(cl, known, s.podCache, listing));
    forall name | name in Admission.Names(accepted)
      ensures Known(env, s.podCache, s.created, name)
    {
      var k :| 0 <= k < |accepted| && accepted[k].name == name;
      assert accepted[k] in accepted;
    }
    if IsCurrent(s.history, s.gate.version) {
      BatchFits(cl, env, s, known, s.gate.snapshot, listing);
    }
  }

  lemma CommitKeepsInv(cl: Cluster, env: Environment, s: State)
    requires Inv(cl, env, s) && Can(cl, env, s, GateCommit)
    ensures Inv(cl, env, Do(cl, env, s, GateCommit))
  {
    var queue := s.gate.queue;
    if queue != [] && IsCurrent(s.history, s.gate.version) {
      var jq := JobQueue(queue, Some(AllLocks(cl)));
      var history' := s.history + [jq];
      assert Current(history') == jq;
      assert Quiet(s.history, s.workers, ArqLock) && QueueSettled(s.pods, Current(s.history).queue);
      forall lock | Enabled(cl, lock)
        ensures Held(jq, lock) && !Verifying(history', s.workers, lock)
      {
        assert lock == ArqLock || lock == AcrqLock;
      }
      assert forall i: nat :: !MustCover(cl, history', s.workers, i);
      forall v: nat, name | v < |history'| && name in history'[v].queue
        ensures Known(env, s.podCache, s.created, name) && (name in queue || Settled(s.pods, name))
      {
        if v < |s.history| {
          assert name in s.history[v].queue;
        }
      }
      assert history'[|s.history|] == jq;
      assert AllSeen(s.pods, s.podCache);
    }
  }

  lemma ReleaseKeepsInv(cl: Cluster, env: Environment, s: State)
    requires Inv(cl, env, s) && Can(cl, env, s, GateRelease)
    ensures Inv(cl, env, Do(cl, env, s, GateRelease))
  {
    var name := s.gate.names[0];
    var rest := s.gate.names[1..];
    assert Committed(s.history, name) && forall n | n in rest :: Committed(s.history, n);
    if name in s.podCache && name in s.pods && Releasable(s.podCache[name]) && s.pods[name] == s.podCache[name] {
      UngatingKeepsInv(cl, env, s, name);
    }
  }

  /** Ungating a committed pod that is still gated: it belongs to the current queue, so its
      usage is already reserved, and no lock is quiet. */
  lemma UngatingKeepsInv(cl: Cluster, env: Environment, s: State, name: string)
    requires Inv(cl, env, s) && Committed(s.history, name)
    requires name in s.pods && s.pods[name].gates != []
    ensures Inv(cl, env, s.(pods := s.pods[name := s.pods[name].(gates := [])], gate := Idle))
  {
    UngatingKeepsQueues(cl, env, s, name);
    UngatingKeepsReserved(cl, s.pods, name, Current(s.history).queue);
    assert forall i: nat | i < |s.used| :: !MustCover(cl, s.history, s.workers, i);
  }

  lemma UngatingKeepsQueues(cl: Cluster, env: Environment, s: State, name: string)
    requires Inv(cl, env, s) && Committed(s.history, name)
    requires name in s.pods && s.pods[name].gates != []
    ensures name in Current(s.history).queue
    ensures forall lock | Enabled(cl, lock) :: !Quiet(s.history, s.workers, lock)
    ensures var pods' := s.pods[name := s.pods[name].(gates := [])];
            && QueuesOk(env, pods', s.podCache, s.created, s.history)
            && RoundOk(cl, pods', s.podCache, s.history, s.workers)
  {
    var pods' := s.pods[name := s.pods[name].(gates := [])];
    assert name in Current(s.history).queue;
    assert forall lock | Enabled(cl, lock) :: !Quiet(s.history, s.workers, lock);
    assert forall n | Settled(s.pods, n) :: Settled(pods', n);
  }

  lemma UngatingKeepsReserved(cl: Cluster, pods: Pods, name: string, queue: seq<string>)
    requires name in pods && name in queue && Bounded(cl, pods, queue)
    ensures Bounded(cl, pods[name := pods[name].(gates := [])], queue)
  {
    var pods' := pods[name := pods[name].(gates := [])];
    forall i: nat, r | Governs(cl, i, r)
      ensures Reserved(pods', QueueSet(queue), i, r) <= cl.quotas[i].hard[r]
    {
      assert Contributions(pods', QueueSet(queue), i, r) == Contributions(pods, QueueSet(queue), i, r);
    }
  }

  // ---------------------------------------------------------------- worker steps

  lemma {:induction false} VerifiedFromSettles(env: Environment, s: State, queue: seq<string>, rest: seq<string>)
    requires PodsOk(env, s.pods, s.podCache, s.created) && VerifiedFrom(s.podCache, s.pods, queue, rest)
    requires forall name | name in rest :: name in queue
    ensures QueueSettled(s.pods, rest)
    ensures (forall name | name in rest :: name in s.podCache) ==> forall name | name in rest :: Seen(s.podCache, name)
  {
    if rest != [] && rest[0] in s.podCache {
      VerifiedFromSettles(env, s, queue, rest[1..]);
      assert forall name | name in rest :: name == rest[0] || name in rest[1..];
    }
  }

  /** Verification of the current queue settles it and shows every ungated pod. */
  lemma VerificationSettles(cl: Cluster, env: Environment, s: State)
    requires Benign(env) && Inv(cl, env, s) && PodsReadable(env, s)
    requires Verified(s.podCache, s.pods, Current(s.history).queue)
    ensures QueueSettled(s.pods, Current(s.history).queue) && AllSeen(s.pods, s.podCache)
  {
    var queue := Current(s.history).queue;
    VerifiedFromSettles(env, s, queue, queue);
    forall name | name in s.pods && s.pods[name].gates == []
      ensures Seen(s.podCache, name)
    {
      if !env.podsDeleted && name in queue {
        forall n | n in queue
          ensures n in s.podCache
        {
          assert n in s.history[|s.history| - 1].queue;
          assert Known(env, s.podCache, s.created, n);
        }
      }
    }
  }

  /** A worker that moves without becoming the one that covers more quotas. */
  lemma WorkerMoveKeepsInv(cl: Cluster, env: Environment, s: State, lock: Lock, worker: Worker)
    requires Inv(cl, env, s) && lock in s.workers
    requires worker.Syncing? && worker.unlock.Some? ==>
               worker.unlock.value < |s.history| && Held(s.history[worker.unlock.value], lock)
    requires Verifying(s.history, s.workers[lock := worker], lock) ==>
               && QueueSettled(s.pods, Current(s.history).queue) && AllSeen(s.pods, s.podCache)
               && forall i: nat | i < |cl.quotas| && cl.quotas[i].lock == lock && i !in worker.todo ::
                    Covers(cl, s.pods, i, s.used[i])
    ensures Inv(cl, env, s.(workers := s.workers[lock := worker]))
  {
    var workers' := s.workers[lock := worker];
    forall l | Enabled(cl, l) && Quiet(s.history, workers', l)
      ensures QueueSettled(s.pods, Current(s.history).queue) && AllSeen(s.pods, s.podCache)
    {
      if l != lock {
        assert Quiet(s.history, s.workers, l);
      } else if !Verifying(s.history, workers', l) {
        assert Quiet(s.history, s.workers, l);
      }
    }
    forall i: nat | i < |s.used| && MustCover(cl, s.history, workers', i)
      ensures Covers(cl, s.pods, i, s.used[i])
    {
      if cl.quotas[i].lock != lock || !Held(Current(s.history), lock) {
        assert MustCover(cl, s.history, s.workers, i);
      }
    }
    assert forall l: Lock :: l in workers' <==> Enabled(cl, l);
  }

  lemma WorkerReadKeepsInv(cl: Cluster, env: Environment, s: State, lock: Lock, seen: Option<nat>, known: set<nat>)
    requires Benign(env) && Inv(cl, env, s) && Can(cl, env, s, WorkerRead(lock, seen, known))
    ensures Inv(cl, env, Do(cl, env, s, WorkerRead(lock, seen, known)))
  {
    var unlock := if seen.Some? && Held(s.history[seen.value], lock) then seen else None;
    if unlock.Some? && IsCurrent(s.history, unlock.value) {
      VerificationSettles(cl, env, s);
    }
    assert forall i: nat | i < |cl.quotas| && cl.quotas[i].lock == lock :: i in QuotasOf(cl, lock);
    WorkerMoveKeepsInv(cl, env, s, lock, Syncing(unlock, ToSync(cl, lock, known)));
  }

  lemma WorkerStopKeepsInv(cl: Cluster, env: Environment, s: State, lock: Lock)
    requires Inv(cl, env, s) && Can(cl, env, s, WorkerStop(lock))
    ensures Inv(cl, env, Do(cl, env, s, WorkerStop(lock)))
  {
    WorkerMoveKeepsInv(cl, env, s, lock, Resting);
  }

  /** A recount never falls below the true usage when every ungated pod has been seen. */
  lemma RecountCovers(cl: Cluster, env: Environment, s: State, i: nat, r: string)
    requires PodsOk(env, s.pods, s.podCache, s.created) && Metered(cl, r)
    requires AllSeen(s.pods, s.podCache)
    requires s.podCache.Keys <= s.pods.Keys
    ensures Usage(s.pods, i, r) <= Usage(s.podCache, i, r)
  {
    forall name
      ensures Contribution(s.pods, {}, name, i, r) <= Contribution(s.podCache, {}, name, i, r)
    {
      if name in s.pods && name in s.podCache {
        FollowsCharge(s.podCache[name], s.pods[name], i, r);
      }
    }
    ReservedMonotone(s.pods, {}, s.podCache, {}, i, r);
  }

  /** What a sync stores covers the ungated pods whenever it has to. */
  lemma RecordCovers(cl: Cluster, env: Environment, s: State, i: nat, newUsed: ResourceList, failed: bool)
    requires Benign(env) && Inv(cl, env, s)
    requires i < |cl.quotas| && (failed || PodsReadable(env, s)) && Records(cl, s, i, newUsed, failed)
    requires failed ==> MustCover(cl, s.history, s.workers, i)
    requires !failed ==> Quiet(s.history, s.workers, cl.quotas[i].lock)
    ensures Covers(cl, s.pods, i, newUsed)
  {
    assert Enabled(cl, cl.quotas[i].lock);
    if failed {
      assert Covers(cl, s.pods, i, s.used[i]);
    }
    forall r | Governs(cl, i, r)
      ensures Usage(s.pods, i, r) <= Get(newUsed, r)
    {
      if !failed {
        RecountCovers(cl, env, s, i, r);
      }
    }
  }

  lemma RecordKeepsInv(cl: Cluster, env: Environment, s: State, i: nat, newUsed: ResourceList)
    requires Inv(cl, env, s) && i < |s.used|
    requires MustCover(cl, s.history, s.workers, i) ==> Covers(cl, s.pods, i, newUsed)
    ensures Inv(cl, env, s.(used := s.used[i := newUsed]))
  {
  }

  lemma BackgroundKeepsInv(cl: Cluster, env: Environment, s: State, i: nat, newUsed: ResourceList, failed: bool)
    requires Benign(env) && Inv(cl, env, s) && Can(cl, env, s, BackgroundSync(i, newUsed, failed))
    ensures Inv(cl, env, Do(cl, env, s, BackgroundSync(i, newUsed, failed)))
  {
    if MustCover(cl, s.history, s.workers, i) {
      RecordCovers(cl, env, s, i, newUsed, failed);
    }
    RecordKeepsInv(cl, env, s, i, newUsed);
  }

  lemma SyncKeepsInv(cl: Cluster, env: Environment, s: State, lock: Lock, i: nat, newUsed: ResourceList, failed: bool)
    requires Benign(env) && Inv(cl, env, s) && Can(cl, env, s, WorkerSync(lock, i, newUsed, failed))
    ensures Inv(cl, env, Do(cl, env, s, WorkerSync(lock, i, newUsed, failed)))
  {
    var worker := s.workers[lock];
    var recorded := s.(used := s.used[i := newUsed]);
    if MustCover(cl, s.history, s.workers, i) {
      RecordCovers(cl, env, s, i, newUsed, failed);
    }
    RecordKeepsInv(cl, env, s, i, newUsed);
    if failed {
      WorkerMoveKeepsInv(cl, env, recorded, lock, Resting);
    } else {
      var worker' := worker.(todo := worker.todo - {i});
      if Verifying(s.history, s.workers[lock := worker'], lock) {
        assert Verifying(s.history, s.workers, lock) && Quiet(s.history, s.workers, lock);
        forall k: nat | k < |cl.quotas| && cl.quotas[k].lock == lock && k !in worker'.todo
          ensures Covers(cl, s.pods, k, recorded.used[k])
        {
          if k == i {
            RecordCovers(cl, env, s, i, newUsed, failed);
          } else {
            assert MustCover(cl, s.history, s.workers, k);
          }
        }
      }
      WorkerMoveKeepsInv(cl, env, recorded, lock, worker');
    }
  }

  lemma UnlockKeepsInv(cl: Cluster, env: Environment, s: State, lock: Lock)
    requires Inv(cl, env, s) && Can(cl, env, s, WorkerUnlock(lock))
    ensures Inv(cl, env, Do(cl, env, s, WorkerUnlock(lock)))
  {
    var version := s.workers[lock].unlock.value;
    WorkerMoveKeepsInv(cl, env, s, lock, Resting);
    if IsCurrent(s.history, version) {
      var jq := s.history[version];
      var jq' := jq.(locks := Some(jq.locks.value[lock := false]));
      assert Verifying(s.history, s.workers, lock);
      assert QueueSettled(s.pods, Current(s.history).queue) && AllSeen(s.pods, s.podCache);
      assert forall i: nat | MustCover(cl, s.history + [jq'], s.workers[lock := Resting], i) ::
               MustCover(cl, s.history, s.workers, i) by {
        assert forall l | l != lock :: Held(jq', l) == Held(jq, l);
        assert Current(s.history + [jq']) == jq';
      }
      NewVersionKeepsInv(cl, env, s, s.workers[lock := Resting], jq');
    }
  }

  /** A new version with the same, settled queue. */
  lemma NewVersionKeepsInv(cl: Cluster, env: Environment, s: State, workers': Workers, jq': JobQueue)
    requires Inv(cl, env, s) && s.history != [] && jq'.queue == Current(s.history).queue
    requires QueueSettled(s.pods, jq'.queue) && AllSeen(s.pods, s.podCache)
    requires WorkersOk(s.history, workers') && forall l: Lock :: l in workers' <==> Enabled(cl, l)
    requires forall i: nat | MustCover(cl, s.history + [jq'], workers', i) :: MustCover(cl, s.history, s.workers, i)
    ensures Inv(cl, env, s.(history := s.history + [jq'], workers := workers'))
  {
    var history' := s.history + [jq'];
    assert Current(history') == jq';
    forall v: nat, name | v < |history'| && name in history'[v].queue
      ensures Known(env, s.podCache, s.created, name) && (name in jq'.queue || Settled(s.pods, name))
    {
      assert name in s.history[if v < |s.history| then v else v - 1].queue;
    }
    if s.gate.Releasing? {
      forall name | name in s.gate.names
        ensures Committed(history', name)
      {
        var v: nat :| v < |s.history| && name in s.history[v].queue;
        assert name in history'[v].queue;
      }
    }
  }

  // ---------------------------------------------------------------- runs

  lemma PodStepKeepsInv(cl: Cluster, env: Environment, s: State, step: Step)
    requires Benign(env) && Inv(cl, env, s) && Can(cl, env, s, step)
    requires ChangesPods(step)
    ensures Inv(cl, env, Do(cl, env, s, step))
  {
    match step {
      case CreatePod(name, pod) => CreationKeepsInv(cl, env, s, name, pod);
      case RemoveForeignGate(name, position) => UngatingForeignKeepsInv(cl, env, s, name, position);
      case FinishPod(name) => PodChangeKeepsInv(cl, env, s, name, s.pods[name].(finished := true));
      case DeletePod(name) => DeletionKeepsInv(cl, env, s, name);
    }
  }

  lemma GateStepKeepsInv(cl: Cluster, env: Environment, s: State, step: Step)
    requires Benign(env) && Inv(cl, env, s) && Can(cl, env, s, step) && OfGate(step)
    ensures Inv(cl, env, Do(cl, env, s, step))
  {
    match step {
      case GateCreate => GateCreateKeepsInv(cl, env, s);
      case GateRead(version) => GateReadKeepsInv(cl, env, s, version);
      case GateDecide(listing, known) => DecideKeepsInv(cl, env, s, listing, known);
      case GateCommit => CommitKeepsInv(cl, env, s);
      case GateRelease => ReleaseKeepsInv(cl, env, s);
      case GateStop =>
    }
  }

  lemma WorkerStepKeepsInv(cl: Cluster, env: Environment, s: State, step: Step)
    requires Benign(env) && Inv(cl, env, s) && Can(cl, env, s, step) && OfWorker(step) && !step.WorkerSkip?
    ensures Inv(cl, env, Do(cl, env, s, step))
  {
    match step {
      case WorkerRead(lock, seen, known) => WorkerReadKeepsInv(cl, env, s, lock, seen, known);
      case WorkerSync(lock, i, newUsed, failed) => SyncKeepsInv(cl, env, s, lock, i, newUsed, failed);
      case WorkerUnlock(lock) => UnlockKeepsInv(cl, env, s, lock);
      case WorkerStop(lock) => WorkerStopKeepsInv(cl, env, s, lock);
      case BackgroundSync(i, newUsed, failed) => BackgroundKeepsInv(cl, env, s, i, newUsed, failed);
    }
  }

  /** Every step keeps the invariant. A benign environment has no skipped writes. */
  lemma StepKeepsInv(cl: Cluster, env: Environment, s: State, step: Step)
    requires Benign(env) && Inv(cl, env, s) && Can(cl, env, s, step)
    ensures Inv(cl, env, Do(cl, env, s, step))
  {
    if ChangesPods(step) {
      PodStepKeepsInv(cl, env, s, step);
    } else if Observes(step) {
      ObservationKeepsInv(cl, env, s, step);
    } else if OfGate(step) {
      GateStepKeepsInv(cl, env, s, step);
    } else {
      assert !step.WorkerSkip?;
      WorkerStepKeepsInv(cl, env, s, step);
    }
  }

  lemma InitEstablishesInv(cl: Cluster, env: Environment, s: State)
    requires Init(cl, s)
    ensures Inv(cl, env, s)
  {
    assert QueueSet(Current(s.history).queue) == {};
  }

  lemma {:induction false} RunKeepsInv(cl: Cluster, env: Environment, s: State, steps: seq<Step>, end: State)
    requires Benign(env) && Inv(cl, env, s) && Runs(cl, env, s, steps, end)
    ensures Inv(cl, env, end)
    decreases |steps|
  {
    if steps != [] {
      StepKeepsInv(cl, env, s, steps[0]);
      RunKeepsInv(cl, env, Do(cl, env, s, steps[0]), steps[1..], end);
    }
  }

  /** In a benign environment the ungated pods of a namespace stay within every hard limit
      in every reachable state. */
  lemma HandshakeIsSafe(env: Environment)
    requires Benign(env)
    ensures AlwaysWithinLimits(env)
  {
    forall cl, s | Reachable(cl, env, s)
      ensures WithinLimits(cl, s)
    {
      var start, steps :| Init(cl, start) && Runs(cl, env, start, steps, s);
      InitEstablishesInv(cl, env, start);
      RunKeepsInv(cl, env, start, steps, s);
      forall i: nat, r | Governs(cl, i, r)
        ensures Usage(s.pods, i, r) <= cl.quotas[i].hard[r]
      {
        UsageWithinReserved(s.pods, QueueSet(Current(s.history).queue), i, r);
      }
    }
  }
}
