/** The gate / quota handshake of one namespace, as a state machine over the API server,
    the informer caches and the three controllers.

    Every step below is one atomic action: one read of a cache, one compare-and-set write,
    or one move of the environment. Between any two steps of a controller any other step
    may happen.
 */
module Handshake {
  import opened Resources
  import Admission

  // ---------------------------------------------------------------- objects

  const AAQ_GATE := "ApplicationAwareQuotaGate"

  /** A pod: what it is charged once ungated, the indexes of the quotas whose scopes it
      satisfies, its scheduling gates, and whether it reached a terminal phase. */
  datatype Pod = Pod(usage: ResourceList, scopes: set<nat>, gates: seq<string>, finished: bool)

  /** A finished pod is still counted as an object, but consumes nothing else. */
  const OBJECT_COUNT := "count/pods"

  function Effective(pod: Pod): ResourceList {
    if pod.finished then Mask(pod.usage, {OBJECT_COUNT}) else pod.usage
  }

  predicate Releasable(pod: Pod) {
    pod.gates == [AAQ_GATE]
  }

  type Pods = map<string, Pod>

  datatype Lock = ArqLock | AcrqLock

  /** The status of the namespace's AAQJobQueueConfig: the queue of pods being released and
      the locks (None before the first batch). */
  datatype JobQueue = JobQueue(queue: seq<string>, locks: Option<map<Lock, bool>>)

  const EMPTY_QUEUE := JobQueue([], None)

  predicate Held(jq: JobQueue, lock: Lock) {
    jq.locks.Some? && lock in jq.locks.value && jq.locks.value[lock]
  }

  datatype QuotaSpec = QuotaSpec(hard: ResourceList, lock: Lock)

  /** What does not change during a run: the quotas that apply to the namespace, which
      resources pods are metered in, and whether cluster quotas are enabled. */
  datatype Cluster = Cluster(quotas: seq<QuotaSpec>, tracked: set<string>, clusterQuotas: bool)

  predicate Enabled(cl: Cluster, lock: Lock) {
    lock.ArqLock? || cl.clusterQuotas
  }

  predicate WellFormed(cl: Cluster) {
    forall i | 0 <= i < |cl.quotas| :: Enabled(cl, cl.quotas[i].lock)
  }

  /** A resource whose usage the quota controllers compute from pods alone. */
  predicate Metered(cl: Cluster, r: string) {
    r in cl.tracked && IsSchedulable(r)
  }

  predicate Processed(cl: Cluster, jq: JobQueue) {
    forall lock: Lock | Enabled(cl, lock) :: !Held(jq, lock)
  }

  function AllLocks(cl: Cluster): map<Lock, bool> {
    if cl.clusterQuotas then map[ArqLock := true, AcrqLock := true] else map[ArqLock := true]
  }

  // ---------------------------------------------------------------- state

  /** Where the gate worker of the namespace stands. A version is an index in `history`. */
  datatype Gate =
    | Idle
    | HasQuotas(version: nat, snapshot: seq<ResourceList>)
    | Chosen(version: nat, queue: seq<string>)
    | Releasing(names: seq<string>)

  /** Where a quota controller's namespace worker stands: which version it will unlock, if
      any, and which of its quotas are still to be synced. */
  datatype Worker = Resting | Syncing(unlock: Option<nat>, todo: set<nat>)

  /** `history` lists every version of the job queue object; its last element is current. */
  datatype State = State(
    pods: Pods, podCache: Pods, created: set<string>,
    used: seq<ResourceList>, usedCache: seq<ResourceList>,
    history: seq<JobQueue>, gate: Gate, workers: map<Lock, Worker>)

  function Current(history: seq<JobQueue>): JobQueue {
    if history == [] then EMPTY_QUEUE else history[|history| - 1]
  }

  predicate IsCurrent(history: seq<JobQueue>, version: nat) {
    version + 1 == |history|
  }

  // ---------------------------------------------------------------- usage

  function ChargeOf(pod: Pod, i: nat, r: string): int {
    if i in pod.scopes then Get(Effective(pod), r) else 0
  }

  /** What a pod contributes to quota i when the pods in `queue` count as already released. */
  function Contribution(pods: Pods, queue: set<string>, name: string, i: nat, r: string): int {
    if name in pods && (pods[name].gates == [] || name in queue) then ChargeOf(pods[name], i, r) else 0
  }

  function Contributions(pods: Pods, queue: set<string>, i: nat, r: string): (m: map<string, int>)
    ensures forall name :: Get(m, name) == Contribution(pods, queue, name, i, r)
  {
    map name | name in pods :: Contribution(pods, queue, name, i, r)
  }

  /** Usage once every pod of `queue` is released. */
  ghost function Reserved(pods: Pods, queue: set<string>, i: nat, r: string): int {
    Total(Contributions(pods, queue, i, r))
  }

  /** Usage of the ungated pods: what the quota is there to bound. */
  ghost function Usage(pods: Pods, i: nat, r: string): int {
    Reserved(pods, {}, i, r)
  }

  ghost predicate WithinLimits(cl: Cluster, s: State) {
    forall i: nat, r | i < |cl.quotas| && r in cl.quotas[i].hard && Metered(cl, r) ::
      Usage(s.pods, i, r) <= cl.quotas[i].hard[r]
  }

  // ---------------------------------------------------------------- pods over time

  /** Gates are only ever removed. */
  predicate Subsumes(gates: seq<string>, later: seq<string>) {
    && |later| <= |gates|
    && forall g | g in later :: g in gates
  }

  /** `later` is a possible later state of the same pod as `earlier`. */
  predicate Follows(earlier: Pod, later: Pod) {
    && later.usage == earlier.usage
    && later.scopes == earlier.scopes
    && (earlier.finished ==> later.finished)
    && Subsumes(earlier.gates, later.gates)
  }

  // ---------------------------------------------------------------- assumptions

  /** What the environment is allowed to do. */
  datatype Environment = Environment(
    podCacheLags: bool,    // controllers may act on outdated pods
    podsDeleted: bool,     // pods may be deleted
    namesReused: bool,     // the name of a deleted pod may be used again
    quotaCacheLags: bool,  // the gate controller may act on outdated recorded usage
    syncCacheLags: bool,   // a sync may compare with outdated recorded usage and skip its write
    gateMapperLags: bool,  // the gate controller may not know every cluster quota of the namespace
    syncMapperLags: bool)  // the ACRQ controller may not know every cluster quota of the namespace

  /** What the mapper gives as the cluster quotas of the namespace. */
  predicate Knows(cl: Cluster, lags: bool, known: set<nat>) {
    known <= QuotasOf(cl, AcrqLock) && (lags || known == QuotasOf(cl, AcrqLock))
  }

  // ---------------------------------------------------------------- the gate's decision

  function GateQuotas(cl: Cluster, used: seq<ResourceList>): (quotas: seq<Admission.Quota>)
    requires |used| == |cl.quotas|
    ensures |quotas| == |used|
    ensures forall i | 0 <= i < |used| :: quotas[i] == Admission.Quota(cl.quotas[i].hard, used[i])
  {
    seq(|used|, i requires 0 <= i < |used| => Admission.Quota(cl.quotas[i].hard, used[i]))
  }

  /** The quotas the gate checks a pod against. It passes an ARQ's limits on without its
      scopes, so every ARQ concerns every pod; a cluster quota it knows keeps its scopes. */
  function CheckedAgainst(cl: Cluster, known: set<nat>, pod: Pod): set<nat> {
    pod.scopes - (QuotasOf(cl, AcrqLock) - known) + QuotasOf(cl, ArqLock)
  }

  function RequestOf(cl: Cluster, known: set<nat>, pod: Pod): Admission.Request {
    Admission.Request(Effective(pod), CheckedAgainst(cl, known, pod))
  }

  /** The gated pods of a listing, as they would count without their gate. */
  function Offered(cl: Cluster, known: set<nat>, pods: Pods, listing: seq<string>): (offered: seq<Admission.Candidate>)
    requires forall name | name in listing :: name in pods
    ensures forall c | c in offered ::
              c.name in pods && Releasable(pods[c.name]) && c.request == RequestOf(cl, known, pods[c.name])
  {
    if listing == [] then []
    else
      var rest := Offered(cl, known, pods, listing[1..]);
      var pod := pods[listing[0]];
      if Releasable(pod) then [Admission.Candidate(listing[0], RequestOf(cl, known, pod))] + rest else rest
  }

  /** A listing of a cache: every pod, in some order. */
  ghost predicate Lists(pods: Pods, listing: seq<string>) {
    && (forall name :: name in listing <==> name in pods)
    && (forall j, k | 0 <= j < k < |listing| :: listing[j] != listing[k])
  }

  function DecideBatch(cl: Cluster, known: set<nat>, snapshot: seq<ResourceList>, pods: Pods, listing: seq<string>)
    : Admission.Batch
    requires |snapshot| == |cl.quotas|
    requires forall name | name in listing :: name in pods
  {
    Admission.Greedy(cl.tracked, GateQuotas(cl, snapshot), Offered(cl, known, pods, listing))
  }

  // ---------------------------------------------------------------- verifying the queue

  /** No listed pod of the API server is in the queue and still gated. */
  predicate VerifiedByApi(pods: Pods, queue: seq<string>) {
    forall name | name in queue && name in pods :: pods[name].gates == []
  }

  /** Looks the queue up in the cache, in order; the first pod the cache does not know sends
      the whole question to the API server. */
  predicate Verified(podCache: Pods, pods: Pods, queue: seq<string>)
    decreases queue
  {
    VerifiedFrom(podCache, pods, queue, queue)
  }

  predicate VerifiedFrom(podCache: Pods, pods: Pods, queue: seq<string>, rest: seq<string>)
    decreases rest
  {
    if rest == [] then true
    else if rest[0] !in podCache then VerifiedByApi(pods, queue)
    else podCache[rest[0]].gates == [] && VerifiedFrom(podCache, pods, queue, rest[1..])
  }

  // ---------------------------------------------------------------- recording usage

  /** A successful recount stores the usage of the ungated pods of the cache. */
  ghost predicate Recounts(cl: Cluster, podCache: Pods, i: nat, newUsed: ResourceList)
    requires i < |cl.quotas|
  {
    forall r | r in cl.quotas[i].hard && Metered(cl, r) ::
      r in newUsed && newUsed[r] == Usage(podCache, i, r)
  }

  /** A failed recount or write leaves the recorded usage of metered resources as it was. */
  ghost predicate Keeps(cl: Cluster, i: nat, oldUsed: ResourceList, newUsed: ResourceList)
    requires i < |cl.quotas|
  {
    forall r | r in cl.quotas[i].hard && Metered(cl, r) ::
      Get(newUsed, r) == Get(oldUsed, r) && (r in newUsed <==> r in oldUsed)
  }

  ghost predicate Records(cl: Cluster, s: State, i: nat, newUsed: ResourceList, failed: bool)
    requires i < |cl.quotas| && i < |s.used|
  {
    if failed then Keeps(cl, i, s.used[i], newUsed) else Recounts(cl, s.podCache, i, newUsed)
  }

  function QuotasOf(cl: Cluster, lock: Lock): set<nat> {
    set i: nat | i < |cl.quotas| && cl.quotas[i].lock == lock
  }

  /** The quotas a controller sets out to sync: the ARQ controller lists them, the ACRQ
      controller asks the mapper. */
  function ToSync(cl: Cluster, lock: Lock, known: set<nat>): set<nat> {
    if lock.ArqLock? then QuotasOf(cl, lock) else known
  }

  // ---------------------------------------------------------------- steps

  datatype Step =
    // environment
    | CreatePod(name: string, pod: Pod)
    | RemoveForeignGate(name: string, position: nat)
    | FinishPod(name: string)
    | DeletePod(name: string)
    | ObservePod(name: string, view: Pod)
    | ForgetPod(name: string)
    | ObserveQuota(i: nat)
    // gate controller
    | GateCreate
    | GateRead(version: nat)
    | GateDecide(listing: seq<string>, known: set<nat>)
    | GateCommit
    | GateRelease
    | GateStop
    // quota controllers
    | WorkerRead(lock: Lock, seen: Option<nat>, known: set<nat>)
    | WorkerSync(lock: Lock, i: nat, newUsed: ResourceList, failed: bool)
    | WorkerSkip(lock: Lock, i: nat)
    | WorkerUnlock(lock: Lock)
    | WorkerStop(lock: Lock)
    | BackgroundSync(i: nat, newUsed: ResourceList, failed: bool)

  /** Changes to the pods of the API server that no controller makes. */
  predicate ChangesPods(step: Step) {
    step.CreatePod? || step.RemoveForeignGate? || step.FinishPod? || step.DeletePod?
  }

  /** Cache updates. */
  predicate Observes(step: Step) {
    step.ObservePod? || step.ForgetPod? || step.ObserveQuota?
  }

  predicate OfGate(step: Step) {
    || step.GateCreate? || step.GateRead? || step.GateDecide?
    || step.GateCommit? || step.GateRelease? || step.GateStop?
  }

  predicate OfWorker(step: Step) {
    || step.WorkerRead? || step.WorkerSync? || step.WorkerSkip?
    || step.WorkerUnlock? || step.WorkerStop? || step.BackgroundSync?
  }

  predicate PodsReadable(env: Environment, s: State) {
    env.podCacheLags || s.podCache == s.pods
  }

  predicate EntryReadable(env: Environment, s: State, name: string) {
    || env.podCacheLags
    || (name in s.podCache && name in s.pods && s.podCache[name] == s.pods[name])
    || (name !in s.podCache && name !in s.pods)
  }

  /** When a step can happen. */
  ghost predicate Can(cl: Cluster, env: Environment, s: State, step: Step) {
    match step
    case CreatePod(name, pod) =>
      && name !in s.pods
      && (env.namesReused || name !in s.created)
      && AAQ_GATE in pod.gates && !pod.finished && Admission.NonNegative(pod.usage)
    case RemoveForeignGate(name, position) =>
      && name in s.pods && position < |s.pods[name].gates| && s.pods[name].gates[position] != AAQ_GATE
    case FinishPod(name) => name in s.pods
    case DeletePod(name) => env.podsDeleted && name in s.pods
    case ObservePod(name, view) =>
      && name in s.pods && Follows(view, s.pods[name])
      && (name in s.podCache ==> Follows(s.podCache[name], view) || !Follows(s.podCache[name], s.pods[name]))
    case ForgetPod(name) => name in s.podCache && name !in s.pods
    case ObserveQuota(i) => i < |s.used| && i < |s.usedCache|
    case GateCreate => s.gate.Idle? && s.history == []
    case GateRead(version) =>
      && s.gate.Idle? && version < |s.history|
      && (env.quotaCacheLags || s.usedCache == s.used)
    case GateDecide(listing, known) =>
      && Knows(cl, env.gateMapperLags, known) && s.gate.HasQuotas? && PodsReadable(env, s) && Lists(s.podCache, listing)
      && |s.gate.snapshot| == |cl.quotas|
    case GateCommit => s.gate.Chosen?
    case GateRelease => s.gate.Releasing? && s.gate.names != [] && EntryReadable(env, s, s.gate.names[0])
    case GateStop => !s.gate.Idle?
    case WorkerRead(lock, seen, known) =>
      && Knows(cl, env.syncMapperLags, known)
      && lock in s.workers && s.workers[lock].Resting?
      && (seen.Some? ==> seen.value < |s.history|)
      && (seen.Some? && Held(s.history[seen.value], lock) ==>
            PodsReadable(env, s) && Verified(s.podCache, s.pods, s.history[seen.value].queue))
    case WorkerSync(lock, i, newUsed, failed) =>
      && lock in s.workers && s.workers[lock].Syncing? && i in s.workers[lock].todo
      && i < |s.used| && i < |cl.quotas| && (failed || PodsReadable(env, s)) && Records(cl, s, i, newUsed, failed)
    case WorkerSkip(lock, i) =>
      && env.syncCacheLags
      && lock in s.workers && s.workers[lock].Syncing? && i in s.workers[lock].todo
      && i < |s.usedCache| && i < |cl.quotas| && PodsReadable(env, s) && Recounts(cl, s.podCache, i, s.usedCache[i])
    case WorkerUnlock(lock) =>
      && lock in s.workers && s.workers[lock].Syncing? && s.workers[lock].todo == {}
      && s.workers[lock].unlock.Some? && s.workers[lock].unlock.value < |s.history|
      && s.history[s.workers[lock].unlock.value].locks.Some?
    case WorkerStop(lock) => lock in s.workers && s.workers[lock].Syncing?
    case BackgroundSync(i, newUsed, failed) =>
      && i < |s.used| && i < |cl.quotas| && (failed || PodsReadable(env, s)) && Records(cl, s, i, newUsed, failed)
  }

  /** A status write: it succeeds only from the current version. */
  function UpdateStatus(s: State, version: nat, status: JobQueue): State {
    if IsCurrent(s.history, version) then s.(history := s.history + [status]) else s
  }

  /** Removing the gate from the cached copy of one pod. The write needs the cached copy to
      be current; the worker gives up when it is not. */
  function ReleaseOne(s: State, name: string, rest: seq<string>): State {
    if name !in s.podCache || !Releasable(s.podCache[name]) then s.(gate := Releasing(rest))
    else if name in s.pods && s.pods[name] == s.podCache[name]
    then s.(pods := s.pods[name := s.pods[name].(gates := [])], gate := Releasing(rest))
    else s.(gate := Idle)
  }

  /** The state after a step. */
  ghost function Do(cl: Cluster, env: Environment, s: State, step: Step): State
    requires Can(cl, env, s, step)
  {
    match step
    case CreatePod(name, pod) => s.(pods := s.pods[name := pod], created := s.created + {name})
    case RemoveForeignGate(name, position) =>
      var gates := s.pods[name].gates;
      s.(pods := s.pods[name := s.pods[name].(gates := gates[..position] + gates[position + 1..])])
    case FinishPod(name) => s.(pods := s.pods[name := s.pods[name].(finished := true)])
    case DeletePod(name) => s.(pods := s.pods - {name})
    case ObservePod(name, view) => s.(podCache := s.podCache[name := view])
    case ForgetPod(name) => s.(podCache := s.podCache - {name})
    case ObserveQuota(i) => s.(usedCache := s.usedCache[i := s.used[i]])
    case GateCreate => s.(history := [EMPTY_QUEUE])
    case GateRead(version) =>
      var jq := s.history[version];
      if jq.locks.Some? && !Processed(cl, jq)
      then s.(gate := Releasing(jq.queue))
      else s.(gate := HasQuotas(version, s.usedCache))
    case GateDecide(listing, known) =>
      var batch := DecideBatch(cl, known, s.gate.snapshot, s.podCache, listing);
      s.(gate := Chosen(s.gate.version, Admission.Names(batch.accepted)))
    case GateCommit =>
      var queue := s.gate.queue;
      if queue == [] then s.(gate := Idle)
      else if IsCurrent(s.history, s.gate.version)
      then UpdateStatus(s, s.gate.version, JobQueue(queue, Some(AllLocks(cl)))).(gate := Releasing(queue))
      else s.(gate := Idle)
    case GateRelease => ReleaseOne(s, s.gate.names[0], s.gate.names[1..])
    case GateStop => s.(gate := Idle)
    case WorkerRead(lock, seen, known) =>
      var unlock := if seen.Some? && Held(s.history[seen.value], lock) then seen else None;
      s.(workers := s.workers[lock := Syncing(unlock, ToSync(cl, lock, known))])
    case WorkerSync(lock, i, newUsed, failed) =>
      var w := s.workers[lock];
      s.(used := s.used[i := newUsed],
         workers := s.workers[lock := if failed then Resting else w.(todo := w.todo - {i})])
    case WorkerSkip(lock, i) =>
      var w := s.workers[lock];
      s.(workers := s.workers[lock := w.(todo := w.todo - {i})])
    case WorkerUnlock(lock) =>
      var version := s.workers[lock].unlock.value;
      var jq := s.history[version];
      var cleared := jq.(locks := Some(jq.locks.value[lock := false]));
      UpdateStatus(s, version, cleared).(workers := s.workers[lock := Resting])
    case WorkerStop(lock) => s.(workers := s.workers[lock := Resting])
    case BackgroundSync(i, newUsed, failed) => s.(used := s.used[i := newUsed])
  }

  // ---------------------------------------------------------------- runs

  /** A namespace whose ungated pods are covered by the recorded usage and within limits,
      and whose job queue does not exist yet. */
  ghost predicate Init(cl: Cluster, s: State) {
    && WellFormed(cl)
    && |s.used| == |cl.quotas| && s.usedCache == s.used
    && s.podCache == s.pods && s.created == s.pods.Keys
    && (forall name | name in s.pods ::
          && Admission.NonNegative(s.pods[name].usage)
          && (s.pods[name].gates != [] ==> AAQ_GATE in s.pods[name].gates))
    && s.history == [] && s.gate == Idle
    && (forall lock: Lock :: lock in s.workers <==> Enabled(cl, lock))
    && (forall lock | lock in s.workers :: s.workers[lock] == Resting)
    && (forall i: nat, r | i < |cl.quotas| && r in cl.quotas[i].hard && Metered(cl, r) ::
          Usage(s.pods, i, r) <= Get(s.used[i], r))
    && WithinLimits(cl, s)
  }

  ghost predicate Runs(cl: Cluster, env: Environment, s: State, steps: seq<Step>, end: State)
    decreases |steps|
  {
    if steps == [] then s == end
    else Can(cl, env, s, steps[0]) && Runs(cl, env, Do(cl, env, s, steps[0]), steps[1..], end)
  }

  ghost predicate Reachable(cl: Cluster, env: Environment, s: State) {
    exists start, steps :: Init(cl, start) && Runs(cl, env, start, steps, s)
  }

  /** No run of any namespace, under these assumptions, ever exceeds a hard limit. */
  ghost predicate AlwaysWithinLimits(env: Environment) {
    forall cl, s | Reachable(cl, env, s) :: WithinLimits(cl, s)
  }

  /** Some run leads from s to end. */
  ghost predicate Leads(cl: Cluster, env: Environment, s: State, end: State) {
    exists steps :: Runs(cl, env, s, steps, end)
  }

  lemma LeadsHere(cl: Cluster, env: Environment, s: State)
    ensures Leads(cl, env, s, s)
  {
    assert Runs(cl, env, s, [], s);
  }

  lemma {:induction false} RunsConcat(cl: Cluster, env: Environment, s: State, first: seq<Step>, mid: State,
                                      second: seq<Step>, end: State)
    requires Runs(cl, env, s, first, mid) && Runs(cl, env, mid, second, end)
    ensures Runs(cl, env, s, first + second, end)
    decreases |first|
  {
    if first == [] {
      assert first + second == second;
    } else {
      RunsConcat(cl, env, Do(cl, env, s, first[0]), first[1..], mid, second, end);
      assert (first + second)[1..] == first[1..] + second;
    }
  }

  lemma LeadsOn(cl: Cluster, env: Environment, s: State, mid: State, end: State)
    requires Leads(cl, env, s, mid) && Leads(cl, env, mid, end)
    ensures Leads(cl, env, s, end)
  {
    var first :| Runs(cl, env, s, first, mid);
    var second :| Runs(cl, env, mid, second, end);
    RunsConcat(cl, env, s, first, mid, second, end);
  }

  /** One more step. */
  lemma LeadsStep(cl: Cluster, env: Environment, s: State, mid: State, step: Step)
    requires Leads(cl, env, s, mid) && Can(cl, env, mid, step)
    ensures Leads(cl, env, s, Do(cl, env, mid, step))
  {
    var end := Do(cl, env, mid, step);
    assert Runs(cl, env, end, [], end);
    assert Runs(cl, env, mid, [step], end) by { assert [step][1..] == []; }
    LeadsOn(cl, env, s, mid, end);
  }
}
