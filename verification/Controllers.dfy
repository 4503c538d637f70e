/** The gate controller and the quota controllers as the imperative code they are. An
    uninterrupted execution of either is a run of the handshake's steps, so what is proved
    about every run holds for them. */
module Controllers {
  import opened Resources
  import opened Handshake
  import Admission
  import ArqSync
  import ClusterAccounting
  import ClusterSync

  datatype Requeue = Immediate | Forget

  predicate Distinct(names: seq<string>) {
    forall j, k | 0 <= j < k < |names| :: names[j] != names[k]
  }

  /** Checks that no pod of the queue is gated: first in the cached listing, and from the API
      server as soon as one pod is not in the cache. */
  method VerifyPodsWithoutSchedulingGates(podCache: Pods, pods: Pods, queue: seq<string>) returns (verified: bool)
    ensures verified == Verified(podCache, pods, queue)
  {
    var gated: map<string, bool> := map[];
    var todo := podCache.Keys;
    while todo != {}
      invariant todo <= podCache.Keys && gated.Keys == podCache.Keys - todo
      invariant forall name | name in gated :: gated[name] == (podCache[name].gates != [])
      decreases todo
    {
      var name :| name in todo;
      gated := gated[name := |podCache[name].gates| > 0];
      todo := todo - {name};
    }
    var k := 0;
    while k < |queue|
      invariant k <= |queue|
      invariant VerifiedFrom(podCache, pods, queue, queue)
             == VerifiedFrom(podCache, pods, queue, queue[k..])
    {
      if queue[k] in gated {
        if gated[queue[k]] {
          return false;
        }
      } else {
        verified := VerifyWithApiCall(pods, queue);
        return;
      }
      k := k + 1;
    }
    return true;
  }

  method VerifyWithApiCall(pods: Pods, queue: seq<string>) returns (verified: bool)
    ensures verified == VerifiedByApi(pods, queue)
  {
    var todo := pods.Keys;
    while todo != {}
      invariant todo <= pods.Keys
      invariant forall name | name in queue && name in pods.Keys - todo :: pods[name].gates == []
      decreases todo
    {
      var name :| name in todo;
      if name in queue && |pods[name].gates| > 0 {
        return false;
      }
      todo := todo - {name};
    }
    return true;
  }

  /** The objects of one namespace, as the API server and the informers hold them. */
  class Namespace {
    const cl: Cluster
    ghost const env: Environment
    var pods: Pods
    var podCache: Pods
    var used: seq<ResourceList>
    var usedCache: seq<ResourceList>
    var history: seq<JobQueue>
    ghost var created: set<string>
    ghost var gate: Gate
    ghost var workers: map<Lock, Worker>

    constructor (cl: Cluster, ghost env: Environment, start: State)
      requires |start.used| == |start.usedCache| == |cl.quotas|
      ensures this.cl == cl && this.env == env && Now() == start
    {
      this.cl := cl;
      this.env := env;
      pods, podCache, used, usedCache := start.pods, start.podCache, start.used, start.usedCache;
      history := start.history;
      created, gate, workers := start.created, start.gate, start.workers;
    }

    ghost function Now(): State
      reads this
    {
      State(pods, podCache, created, used, usedCache, history, gate, workers)
    }

    /** A compare-and-set write of the job queue's status. */
    method UpdateStatus(version: nat, status: JobQueue) returns (conflict: bool)
      modifies this`history
      ensures conflict == !IsCurrent(old(history), version)
      ensures history == if conflict then old(history) else old(history) + [status]
    {
      conflict := version + 1 != |history|;
      if !conflict {
        history := history + [status];
      }
    }

    /** Ungates one pod from its cached copy, if that copy is still current. */
    method ReleasePod(name: string, ghost rest: seq<string>) returns (failed: bool)
      requires gate == Releasing([name] + rest) && EntryReadable(env, Now(), name)
      modifies this`pods, this`gate
      ensures Leads(cl, env, old(Now()), Now())
      ensures gate == if failed then Idle else Releasing(rest)
      ensures var due := name in podCache && Releasable(podCache[name]);
              && failed == (due && !(name in old(pods) && old(pods)[name] == podCache[name]))
              && pods == if due && !failed then old(pods)[name := old(pods)[name].(gates := [])] else old(pods)
    {
      ghost var before := Now();
      assert ([name] + rest)[1..] == rest;
      LeadsHere(cl, env, before);
      LeadsStep(cl, env, before, before, GateRelease);
      failed := false;
      gate := Releasing(rest);
      if name in podCache && Releasable(podCache[name]) {
        if name !in pods || pods[name] != podCache[name] {
          failed := true;
          gate := Idle;
        } else {
          pods := pods[name := pods[name].(gates := [])];
        }
      }
      assert Now() == Do(cl, env, before, GateRelease);
    }

    /** Ungates the named pods one by one, from their cached copies; a copy that is no longer
        current ends the attempt with an error. */
    method ReleasePods(names: seq<string>) returns (failed: bool)
      requires gate == Releasing(names)
      requires env.podCacheLags || (podCache == pods && Distinct(names))
      modifies this`pods, this`gate
      ensures Leads(cl, env, old(Now()), Now()) && gate == Idle
      ensures Released(podCache, old(pods), pods, names, failed)
    {
      ghost var start := Now();
      failed := ReleaseEach(names);
      if !failed {
        ghost var before := Now();
        StopGate();
        LeadsOn(cl, env, start, before, Now());
      }
    }

    method ReleaseEach(names: seq<string>) returns (failed: bool)
      requires gate == Releasing(names)
      requires env.podCacheLags || (podCache == pods && Distinct(names))
      modifies this`pods, this`gate
      ensures Leads(cl, env, old(Now()), Now()) && gate == if failed then Idle else Releasing([])
      ensures Released(podCache, old(pods), pods, names, failed)
    {
      var k := 0;
      failed := false;
      ghost var start := Now();
      LeadsHere(cl, env, start);
      while k < |names| && !failed
        invariant k <= |names| && gate == if failed then Idle else Releasing(names[k..])
        invariant Leads(cl, env, start, Now())
        invariant Released(podCache, start.pods, pods, names[..k], failed)
      {
        ghost var before := Now();
        assert names[k..] == [names[k]] + names[k + 1..];
        failed := ReleasePod(names[k], names[k + 1..]);
        LeadsOn(cl, env, start, before, Now());
        ReleasedOneMore(podCache, start.pods, before.pods, pods, names, k, failed);
        k := k + 1;
      }
      if failed {
        ReleasedMore(podCache, start.pods, pods, names, k);
      } else {
        assert names[..|names|] == names;
      }
    }

    ghost method StopGate()
      requires gate == Releasing([])
      modifies this`gate
      ensures gate == Idle && Leads(cl, env, old(Now()), Now())
    {
      LeadsHere(cl, env, Now());
      assert Can(cl, env, Now(), GateStop);
      LeadsStep(cl, env, Now(), Now(), GateStop);
      gate := Idle;
    }

    /** The job queue as cached, or a freshly created one; creation fails when the cache is
        behind and the object exists. */
    method CreateAndGet(cached: Option<nat>) returns (version: Option<nat>)
      requires gate == Idle && (cached.Some? ==> cached.value < |history|)
      modifies this`history
      ensures Leads(cl, env, old(Now()), Now())
      ensures version == if cached.Some? then cached else if old(history) == [] then Some(0) else None
      ensures history == if cached.None? && old(history) == [] then [EMPTY_QUEUE] else old(history)
    {
      LeadsHere(cl, env, Now());
      if cached.Some? {
        return cached;
      }
      if |history| > 0 {
        return None;
      }
      LeadsStep(cl, env, Now(), Now(), GateCreate);
      history := [EMPTY_QUEUE];
      version := Some(0);
    }

    /** The gate controller's work on the namespace, from the version of the job queue in its
        cache; `listing` is the order in which the informer lists the pods, and `known` the
        cluster quotas the mapper gives for the namespace. While a relevant
        lock of that version is held it only releases that version's queue; otherwise it
        opens a round. */
    method ExecuteGate(cached: Option<nat>, listing: seq<string>, known: set<nat>)
      returns (failed: bool, requeue: Requeue)
      requires gate == Idle && (cached.Some? ==> cached.value < |history| && Distinct(history[cached.value].queue))
      requires |usedCache| == |cl.quotas| && Lists(podCache, listing) && Knows(cl, env.gateMapperLags, known)
      requires env.podCacheLags || podCache == pods
      requires env.quotaCacheLags || usedCache == used
      modifies this`history, this`pods, this`gate
      ensures Leads(cl, env, old(Now()), Now()) && gate == Idle
      ensures var jq := if cached.Some? then old(history)[cached.value] else EMPTY_QUEUE;
              var queue := Admission.Names(DecideBatch(cl, known, usedCache, podCache, listing).accepted);
              if cached.None? && old(history) != [] then Now() == old(Now()) && failed && requeue.Immediate?
              else if jq.locks.Some? && !Processed(cl, jq) then
                && history == old(history) && Released(podCache, old(pods), pods, jq.queue, failed)
                && requeue.Immediate?
              else
                var version := if cached.Some? then cached.value else 0;
                var base := if cached.None? then [EMPTY_QUEUE] else old(history);
                && (requeue.Immediate? <==> failed)
                && if queue != [] && IsCurrent(base, version)
                   then history == base + [JobQueue(queue, Some(AllLocks(cl)))]
                          && Released(podCache, old(pods), pods, queue, failed)
                   else history == base && pods == old(pods) && (failed <==> queue != [])
    {
      ghost var start := Now();
      var version := CreateAndGet(cached);
      if version.None? {
        return true, Immediate;
      }
      ghost var read := Now();
      assert Can(cl, env, read, GateRead(version.value));
      LeadsStep(cl, env, start, read, GateRead(version.value));
      var jq := history[version.value];
      var processed := AaqjqcProcessed(cl, jq);
      if jq.locks.Some? && !processed {
        gate := Releasing(jq.queue);
        ghost var before := Now();
        failed := ReleasePods(jq.queue);
        LeadsOn(cl, env, start, before, Now());
        return failed, Immediate;
      }
      gate := HasQuotas(version.value, usedCache);
      ghost var before := Now();
      failed, requeue := OpenRound(version.value, listing, known);
      LeadsOn(cl, env, start, before, Now());
    }

    /** Selects the pods that fit, commits them as the new queue, and releases them. */
    method OpenRound(version: nat, listing: seq<string>, known: set<nat>) returns (failed: bool, requeue: Requeue)
      requires gate == HasQuotas(version, usedCache) && |usedCache| == |cl.quotas|
      requires Lists(podCache, listing) && Knows(cl, env.gateMapperLags, known)
      requires env.podCacheLags || podCache == pods
      modifies this`history, this`pods, this`gate
      ensures Leads(cl, env, old(Now()), Now()) && gate == Idle
      ensures var queue := Admission.Names(DecideBatch(cl, known, usedCache, podCache, listing).accepted);
              && (requeue.Immediate? <==> failed)
              && if queue != [] && IsCurrent(old(history), version)
                 then history == old(history) + [JobQueue(queue, Some(AllLocks(cl)))]
                        && Released(podCache, old(pods), pods, queue, failed)
                 else history == old(history) && pods == old(pods) && (failed <==> queue != [])
    {
      ghost var start := Now();
      LeadsHere(cl, env, start);
      assert Can(cl, env, start, GateDecide(listing, known));
      LeadsStep(cl, env, start, start, GateDecide(listing, known));
      var offered := Offered(cl, known, podCache, listing);
      var queue, accepted, after := Admission.SelectPods(cl.tracked, GateQuotas(cl, usedCache), offered);
      gate := Chosen(version, queue);
      assert Now() == Do(cl, env, start, GateDecide(listing, known));
      BatchDistinct(cl, known, usedCache, podCache, listing);
      ghost var chosen := Now();
      failed, requeue := CommitAndRelease(version, queue);
      LeadsOn(cl, env, start, chosen, Now());
    }

    method CommitAndRelease(version: nat, queue: seq<string>) returns (failed: bool, requeue: Requeue)
      requires gate == Chosen(version, queue) && Distinct(queue)
      requires env.podCacheLags || podCache == pods
      modifies this`history, this`pods, this`gate
      ensures Leads(cl, env, old(Now()), Now()) && gate == Idle
      ensures requeue.Immediate? <==> failed
      ensures if queue != [] && IsCurrent(old(history), version)
              then history == old(history) + [JobQueue(queue, Some(AllLocks(cl)))]
                     && Released(podCache, old(pods), pods, queue, failed)
              else history == old(history) && pods == old(pods) && (failed <==> queue != [])
    {
      ghost var start := Now();
      LeadsHere(cl, env, start);
      assert Can(cl, env, start, GateCommit);
      LeadsStep(cl, env, start, start, GateCommit);
      if |queue| > 0 {
        var conflict := UpdateStatus(version, JobQueue(queue, Some(AllLocks(cl))));
        if conflict {
          gate := Idle;
          assert Now() == Do(cl, env, start, GateCommit);
          return true, Immediate;
        }
        gate := Releasing(queue);
        ghost var committed := Now();
        assert committed == Do(cl, env, start, GateCommit);
        failed := ReleasePods(queue);
        LeadsOn(cl, env, start, committed, Now());
      } else {
        gate := Idle;
        failed := false;
      }
      requeue := if failed then Immediate else Forget;
    }

    // -------------------------------------------------------------- the quota controllers

    /** These quotas record the usage of the ungated pods of the cache. */
    ghost predicate Recorded(quotas: set<nat>)
      reads this
    {
      AllRecorded(cl, podCache, used, quotas)
    }

    /** Recounts quota i from the cached pods, starting from its cached status, merges what its
        managed quota reports, and stores the result; the API server refuses a write made from
        an outdated status. */
    method SyncQuota(i: nat, fate: Fate) returns (failed: bool)
      requires i < |used| == |usedCache| == |cl.quotas|
      requires ArqLock in workers && workers[ArqLock].Syncing? && i in workers[ArqLock].todo
      requires PlausibleFate(fate) && (env.podCacheLags || podCache == pods)
      requires env.syncCacheLags || usedCache[i] == used[i]
      modifies this`used, this`workers
      ensures Leads(cl, env, old(Now()), Now())
      ensures var w := old(workers)[ArqLock];
              workers == old(workers)[ArqLock := if failed then Resting else w.(todo := w.todo - {i})]
      ensures |used| == old(|used|) && (forall k | 0 <= k < |used| && k != i :: used[k] == old(used)[k])
      ensures usedCache[i] == old(used)[i] ==>
                (!failed ==> Recounts(cl, podCache, i, used[i])) && (Smooth(fate) ==> !failed)
    {
      ghost var start := Now();
      var newUsed, wrote;
      newUsed, wrote, failed := RecountArq(cl, podCache, i, usedCache[i],
                                           fate.(refused := fate.refused || usedCache[i] != used[i]));
      if wrote {
        used := used[i := newUsed];
      }
      EndSync(ArqLock, i, start, newUsed, wrote, failed);
    }

    /** What a sync of quota i that ended with `newUsed` is in the machine; with an error it
        ends the worker's round. */
    ghost method EndSync(lock: Lock, i: nat, before: State, newUsed: ResourceList, wrote: bool, failed: bool)
      requires i < |used| == |usedCache| == |cl.quotas| && (env.podCacheLags || podCache == pods) && i < |before.used|
      requires lock in workers && workers[lock].Syncing? && i in workers[lock].todo
      requires Now() == if wrote then before.(used := before.used[i := newUsed]) else before
      requires env.syncCacheLags || usedCache[i] == before.used[i]
      requires SyncResult(cl, podCache, i, usedCache[i], newUsed, wrote, failed)
      requires wrote ==> usedCache[i] == before.used[i]
      modifies this`workers
      ensures Leads(cl, env, before, Now())
      ensures workers == old(workers)[lock := if failed then Resting
                                              else old(workers)[lock].(todo := old(workers)[lock].todo - {i})]
    {
      if wrote {
        SyncLeads(cl, env, before, lock, i, newUsed, failed);
      } else {
        SkipLeads(cl, env, before, lock, i, failed);
        assert before.used[i := before.used[i]] == before.used;
      }
      workers := workers[lock := if failed then Resting else workers[lock].(todo := workers[lock].todo - {i})];
      assert Now() == Synced(before, lock, i, if wrote then newUsed else before.used[i], failed);
    }

    method SyncQuotas(fates: seq<Fate>) returns (failed: bool)
      requires ArqLock in workers && workers[ArqLock].Syncing? && workers[ArqLock].todo == QuotasOf(cl, ArqLock)
      requires |used| == |usedCache| == |fates| == |cl.quotas| && (env.podCacheLags || podCache == pods)
      requires env.syncCacheLags || usedCache == used
      requires forall fate | fate in fates :: PlausibleFate(fate)
      modifies this`used, this`workers
      ensures Leads(cl, env, old(Now()), Now()) && |used| == |cl.quotas|
      ensures workers == old(workers)[ArqLock := if failed then Resting else old(workers)[ArqLock].(todo := {})]
      ensures usedCache == old(used) ==>
                (!failed ==> Recorded(QuotasOf(cl, ArqLock))) && (AllSmooth(cl, fates) ==> !failed)
    {
      ghost var start := Now();
      LeadsHere(cl, env, start);
      var todo := QuotasOf(cl, ArqLock);
      failed := false;
      while todo != {} && !failed
        invariant todo <= QuotasOf(cl, ArqLock) && |used| == |cl.quotas|
        invariant forall i | i in todo :: used[i] == start.used[i]
        invariant workers == start.workers[ArqLock := if failed then Resting else start.workers[ArqLock].(todo := todo)]
        invariant Leads(cl, env, start, Now())
        invariant usedCache == start.used && !failed ==> AllRecorded(cl, podCache, used, QuotasOf(cl, ArqLock) - todo)
        invariant usedCache == start.used && AllSmooth(cl, fates) ==> !failed
        decreases todo
      {
        var i :| i in todo;
        ghost var before := Now();
        failed := SyncQuota(i, fates[i]);
        LeadsOn(cl, env, start, before, Now());
        if usedCache == start.used && !failed {
          OneMoreRecorded(cl, podCache, before.used, used, QuotasOf(cl, ArqLock), todo, i);
        }
        todo := todo - {i};
      }
    }

    /** The part of the round after the wait: recount, then clear the lock. */
    method SyncAndUnlock(unlock: Option<nat>, fates: seq<Fate>) returns (failed: bool)
      requires ArqLock in workers && workers[ArqLock] == Syncing(unlock, QuotasOf(cl, ArqLock))
      requires unlock.Some? ==> unlock.value < |history| && Held(history[unlock.value], ArqLock)
      requires |used| == |usedCache| == |fates| == |cl.quotas|
      requires forall fate | fate in fates :: PlausibleFate(fate)
      requires (env.podCacheLags || podCache == pods) && (env.syncCacheLags || usedCache == used)
      modifies this`used, this`history, this`workers
      ensures Leads(cl, env, old(Now()), Now()) && |used| == |cl.quotas|
      ensures workers == old(workers)[ArqLock := Resting]
      ensures usedCache == old(used) && !failed ==> Recorded(QuotasOf(cl, ArqLock))
      ensures Closed(old(history), ArqLock, if failed then None else unlock)
      ensures var free := unlock.Some? ==> IsCurrent(old(history), unlock.value);
              && (!failed ==> free) && (usedCache == old(used) && AllSmooth(cl, fates) && free ==> !failed)
    {
      ghost var start := Now();
      failed := SyncQuotas(fates);
      if failed {
        return;
      }
      ghost var synced := Now();
      failed := Finish(ArqLock, unlock);
      LeadsOn(cl, env, start, synced, Now());
      assert workers == start.workers[ArqLock := Resting];
    }

    /** The ARQ controller's work on the namespace, from version `seen` of the job queue in
        its cache (None when the cache has none): wait for the queue to be released, recount
        every quota, then clear the ARQ lock. An error ends it before the lock is cleared. */
    method ExecuteArq(seen: Option<nat>, fates: seq<Fate>) returns (failed: bool, requeue: Requeue)
      requires ArqLock in workers && workers[ArqLock] == Resting && |used| == |usedCache| == |fates| == |cl.quotas|
      requires seen.Some? ==> seen.value < |history|
      requires forall fate | fate in fates :: PlausibleFate(fate)
      requires (env.podCacheLags || podCache == pods) && (env.syncCacheLags || usedCache == used)
      modifies this`used, this`history, this`workers
      ensures Leads(cl, env, old(Now()), Now()) && workers == old(workers) && |used| == |cl.quotas|
      ensures usedCache == old(used) && requeue.Forget? ==> Recorded(QuotasOf(cl, ArqLock))
      ensures EndsRound(old(Now()), ArqLock, seen, requeue)
      ensures usedCache == old(used) && AllSmooth(cl, fates) && Unlockable(old(Now()), ArqLock, seen) ==>
                requeue.Forget?
    {
      ghost var start := Now();
      LeadsHere(cl, env, start);
      var released, unlock := AwaitRelease(ArqLock, seen, QuotasOf(cl, AcrqLock));
      if !released {
        return false, Immediate;
      }
      ghost var reading := Now();
      failed := SyncAndUnlock(unlock, fates);
      LeadsOn(cl, env, start, reading, Now());
      assert workers == start.workers;
      requeue := if failed then Immediate else Forget;
    }

    /** Recounts cluster quota i, which selects this namespace alone. */
    method SyncClusterQuota(i: nat, ns: string, fate: ClusterFate) returns (failed: bool)
      requires i < |used| == |usedCache| == |cl.quotas|
      requires AcrqLock in workers && workers[AcrqLock].Syncing? && i in workers[AcrqLock].todo
      requires PlausibleClusterFate(fate, ns, usedCache[i]) && (env.podCacheLags || podCache == pods)
      requires env.syncCacheLags || usedCache[i] == used[i]
      modifies this`used, this`workers
      ensures Leads(cl, env, old(Now()), Now())
      ensures var w := old(workers)[AcrqLock];
              workers == old(workers)[AcrqLock := if failed then Resting else w.(todo := w.todo - {i})]
      ensures |used| == old(|used|) && (forall k | 0 <= k < |used| && k != i :: used[k] == old(used)[k])
      ensures usedCache[i] == old(used)[i] ==>
                (!failed ==> Recounts(cl, podCache, i, used[i])) && (ClusterSmooth(fate) ==> !failed)
    {
      ghost var start := Now();
      var newUsed, wrote;
      newUsed, wrote, failed := RecountAcrq(cl, podCache, i, ns,
                                            fate.(refused := fate.refused || usedCache[i] != used[i]));
      if wrote {
        used := used[i := newUsed];
      }
      EndSync(AcrqLock, i, start, newUsed, wrote, failed);
    }

    method SyncClusterQuotas(ns: string, known: set<nat>, fates: seq<ClusterFate>) returns (failed: bool)
      requires AcrqLock in workers && workers[AcrqLock].Syncing? && workers[AcrqLock].todo == known
      requires |used| == |usedCache| == |fates| == |cl.quotas| && (env.podCacheLags || podCache == pods)
      requires known <= QuotasOf(cl, AcrqLock)
      requires env.syncCacheLags || usedCache == used
      requires AllPlausible(cl, ns, usedCache, known, fates)
      modifies this`used, this`workers
      ensures Leads(cl, env, old(Now()), Now()) && |used| == |cl.quotas|
      ensures workers == old(workers)[AcrqLock := if failed then Resting else old(workers)[AcrqLock].(todo := {})]
      ensures usedCache == old(used) ==>
                (!failed ==> Recorded(known)) && (AllClusterSmooth(cl, known, fates) ==> !failed)
    {
      ghost var start := Now();
      LeadsHere(cl, env, start);
      var todo := known;
      failed := false;
      while todo != {} && !failed
        invariant todo <= known && |used| == |cl.quotas|
        invariant forall i | i in todo :: used[i] == start.used[i]
        invariant workers == start.workers[AcrqLock := if failed then Resting
                                           else start.workers[AcrqLock].(todo := todo)]
        invariant Leads(cl, env, start, Now())
        invariant usedCache == start.used && !failed ==> AllRecorded(cl, podCache, used, known - todo)
        invariant usedCache == start.used && AllClusterSmooth(cl, known, fates) ==> !failed
        decreases todo
      {
        var i :| i in todo;
        ghost var before := Now();
        failed := SyncClusterQuota(i, ns, fates[i]);
        LeadsOn(cl, env, start, before, Now());
        if usedCache == start.used && !failed {
          OneMoreRecorded(cl, podCache, before.used, used, known, todo, i);
        }
        todo := todo - {i};
      }
    }

    /** The part of the round after the wait: recount, then clear the lock. */
    method SyncClusterAndUnlock(ns: string, unlock: Option<nat>, known: set<nat>, fates: seq<ClusterFate>)
      returns (failed: bool)
      requires AcrqLock in workers && workers[AcrqLock] == Syncing(unlock, known)
      requires unlock.Some? ==> unlock.value < |history| && Held(history[unlock.value], AcrqLock)
      requires |used| == |usedCache| == |fates| == |cl.quotas|
      requires known <= QuotasOf(cl, AcrqLock) && AllPlausible(cl, ns, usedCache, known, fates)
      requires (env.podCacheLags || podCache == pods) && (env.syncCacheLags || usedCache == used)
      modifies this`used, this`history, this`workers
      ensures Leads(cl, env, old(Now()), Now()) && |used| == |cl.quotas|
      ensures workers == old(workers)[AcrqLock := Resting]
      ensures usedCache == old(used) && !failed ==> Recorded(known)
      ensures Closed(old(history), AcrqLock, if failed then None else unlock)
      ensures var free := unlock.Some? ==> IsCurrent(old(history), unlock.value);
              && (!failed ==> free)
              && (usedCache == old(used) && AllClusterSmooth(cl, known, fates) && free ==> !failed)
    {
      ghost var start := Now();
      failed := SyncClusterQuotas(ns, known, fates);
      if failed {
        return;
      }
      ghost var synced := Now();
      failed := Finish(AcrqLock, unlock);
      LeadsOn(cl, env, start, synced, Now());
      assert workers == start.workers[AcrqLock := Resting];
    }

    /** The ACRQ controller's work on the namespace: as the ARQ controller's, with the cluster
        quotas the mapper gives for the namespace. A quota missing from the lister ends it. */
    method ExecuteAcrq(ns: string, seen: Option<nat>, known: set<nat>, fates: seq<ClusterFate>)
      returns (failed: bool, requeue: Requeue)
      requires AcrqLock in workers && workers[AcrqLock] == Resting && |used| == |usedCache| == |fates| == |cl.quotas|
      requires seen.Some? ==> seen.value < |history|
      requires Knows(cl, env.syncMapperLags, known) && AllPlausible(cl, ns, usedCache, known, fates)
      requires (env.podCacheLags || podCache == pods) && (env.syncCacheLags || usedCache == used)
      modifies this`used, this`history, this`workers
      ensures Leads(cl, env, old(Now()), Now()) && workers == old(workers) && |used| == |cl.quotas|
      ensures usedCache == old(used) && requeue.Forget? ==> Recorded(known)
      ensures EndsRound(old(Now()), AcrqLock, seen, requeue)
      ensures usedCache == old(used) && AllClusterSmooth(cl, known, fates) && Unlockable(old(Now()), AcrqLock, seen) ==>
                requeue.Forget?
    {
      ghost var start := Now();
      LeadsHere(cl, env, start);
      var released, unlock := AwaitRelease(AcrqLock, seen, known);
      if !released {
        return false, Immediate;
      }
      ghost var reading := Now();
      failed := SyncClusterAndUnlock(ns, unlock, known, fates);
      LeadsOn(cl, env, start, reading, Now());
      assert workers == start.workers;
      requeue := if failed then Immediate else Forget;
    }

    /** A lock was cleared from a version, which was current, and nothing else about the job
        queue changed; or no lock was. */
    ghost predicate Closed(before: seq<JobQueue>, lock: Lock, unlock: Option<nat>)
      reads this
      requires unlock.Some? ==> unlock.value < |before|
    {
      if unlock.Some?
      then && IsCurrent(before, unlock.value) && |history| == |before| + 1 && history[..|before|] == before
           && OnlyCleared(before[unlock.value], Current(history), lock)
      else history == before
    }

    /** A round of a quota controller that began in `before` touches the job queue only by
        clearing its own lock, only from the current version, with the queue it saw released;
        and it is over only when the lock it saw held is cleared. */
    ghost predicate EndsRound(before: State, lock: Lock, seen: Option<nat>, requeue: Requeue)
      reads this
      requires seen.Some? ==> seen.value < |before.history|
    {
      var locked := seen.Some? && Held(before.history[seen.value], lock);
      && (locked && requeue.Forget? ==> Verified(podCache, pods, before.history[seen.value].queue))
      && Closed(before.history, lock, if locked && requeue.Forget? then seen else None)
    }

    /** Begins a round of a quota controller, unless the lock it sees held belongs to a queue
        that is not released; `unlock` is the version it will clear the lock from, if any. */
    method AwaitRelease(lock: Lock, seen: Option<nat>, ghost known: set<nat>)
      returns (released: bool, unlock: Option<nat>)
      requires lock in workers && workers[lock] == Resting && Knows(cl, env.syncMapperLags, known)
      requires seen.Some? ==> seen.value < |history|
      requires env.podCacheLags || podCache == pods
      modifies this`workers
      ensures unlock == if seen.Some? && Held(history[seen.value], lock) then seen else None
      ensures released == (unlock.Some? ==> Verified(podCache, pods, history[unlock.value].queue))
      ensures !released ==> Now() == old(Now())
      ensures released ==> Leads(cl, env, old(Now()), Now())
      ensures released ==> workers == old(workers)[lock := Syncing(unlock, ToSync(cl, lock, known))]
    {
      unlock := None;
      if seen.Some? && Held(history[seen.value], lock) {
        unlock := seen;
        released := VerifyPodsWithoutSchedulingGates(podCache, pods, history[seen.value].queue);
        if !released {
          return;
        }
      }
      released := true;
      BeginSync(lock, seen, known);
    }

    ghost method BeginSync(lock: Lock, seen: Option<nat>, known: set<nat>)
      requires lock in workers && workers[lock] == Resting && Knows(cl, env.syncMapperLags, known)
      requires seen.Some? ==> seen.value < |history|
      requires env.podCacheLags || podCache == pods
      requires seen.Some? && Held(history[seen.value], lock) ==> Verified(podCache, pods, history[seen.value].queue)
      modifies this`workers
      ensures Leads(cl, env, old(Now()), Now())
      ensures var unlock := if seen.Some? && Held(history[seen.value], lock) then seen else None;
              workers == old(workers)[lock := Syncing(unlock, ToSync(cl, lock, known))]
    {
      var start := Now();
      LeadsHere(cl, env, start);
      assert Can(cl, env, start, WorkerRead(lock, seen, known));
      LeadsStep(cl, env, start, start, WorkerRead(lock, seen, known));
      workers := Do(cl, env, start, WorkerRead(lock, seen, known)).workers;
    }

    /** After the last quota: clear the lock that was seen held, if any. */
    method Finish(lock: Lock, unlock: Option<nat>) returns (conflict: bool)
      requires lock in workers && workers[lock] == Syncing(unlock, {})
      requires unlock.Some? ==> unlock.value < |history| && Held(history[unlock.value], lock)
      modifies this`history, this`workers
      ensures Leads(cl, env, old(Now()), Now()) && workers == old(workers)[lock := Resting]
      ensures conflict == (unlock.Some? && !IsCurrent(old(history), unlock.value))
      ensures Closed(old(history), lock, if conflict then None else unlock)
    {
      if unlock.Some? {
        conflict := ClearLock(lock, unlock.value);
      } else {
        ghost var start := Now();
        LeadsHere(cl, env, start);
        assert Can(cl, env, start, WorkerStop(lock));
        LeadsStep(cl, env, start, start, WorkerStop(lock));
        workers := workers[lock := Resting];
        conflict := false;
      }
    }

    /** Writes the cached job queue back with the controller's own lock cleared. */
    method ClearLock(lock: Lock, version: nat) returns (conflict: bool)
      requires lock in workers && workers[lock] == Syncing(Some(version), {})
      requires version < |history| && Held(history[version], lock)
      modifies this`history, this`workers
      ensures Leads(cl, env, old(Now()), Now()) && workers == old(workers)[lock := Resting]
      ensures conflict == !IsCurrent(old(history), version)
      ensures Closed(old(history), lock, if conflict then None else Some(version))
    {
      ghost var start := Now();
      LeadsHere(cl, env, start);
      assert Can(cl, env, start, WorkerUnlock(lock));
      LeadsStep(cl, env, start, start, WorkerUnlock(lock));
      var jq := history[version];
      conflict := UpdateStatus(version, jq.(locks := Some(jq.locks.value[lock := false])));
      workers := workers[lock := Resting];
      assert Now() == Do(cl, env, start, WorkerUnlock(lock));
    }
  }

  /** One lock is cleared; the queue and the other locks are as before. */
  ghost predicate OnlyCleared(before: JobQueue, after: JobQueue, lock: Lock) {
    && after.queue == before.queue && !Held(after, lock)
    && forall other | other != lock :: Held(after, other) <==> Held(before, other)
  }

  // ---------------------------------------------------------------- one recount

  /** What the ARQ controller meets while it syncs one quota. */
  datatype Fate = Fate(rq: Option<ArqSync.ManagedQuota>, lookupFails: bool, evaluationFails: bool, refused: bool)

  predicate PlausibleFate(fate: Fate) {
    ArqSync.ReportsNonSchedulable(fate.rq) && (fate.lookupFails ==> fate.rq.None?)
  }

  /** Nothing fails. */
  predicate Smooth(fate: Fate) {
    !fate.lookupFails && !fate.evaluationFails && !fate.refused
  }

  /** How a sync of quota i that began with `cached` may end: what it writes is a recount, or
      with an error what it began with; without a write or an error the recount is no news. */
  ghost predicate SyncResult(cl: Cluster, podCache: Pods, i: nat, cached: ResourceList, newUsed: ResourceList,
                             wrote: bool, failed: bool)
    requires i < |cl.quotas|
  {
    && (wrote ==> Recounts(cl, podCache, i, newUsed) || (failed && Keeps(cl, i, cached, newUsed)))
    && (!wrote ==> failed || Recounts(cl, podCache, i, cached))
  }

  /** The usage a sync of quota i ends with, whether it wrote it, and whether it reports an
      error. */
  method RecountArq(cl: Cluster, podCache: Pods, i: nat, cached: ResourceList, fate: Fate)
    returns (newUsed: ResourceList, wrote: bool, failed: bool)
    requires i < |cl.quotas| && PlausibleFate(fate)
    ensures SyncResult(cl, podCache, i, cached, newUsed, wrote, failed)
    ensures (fate.refused ==> !wrote) && (!wrote ==> newUsed == cached) && (Smooth(fate) ==> !failed)
  {
    var hard := cl.quotas[i].hard;
    var status := ArqSync.Status(ArqSync.Store(hard), ArqSync.Store(cached));
    var stats := None;
    if !fate.evaluationFails {
      var found := ArqSync.UsageStats(podCache, i, hard.Keys * cl.tracked, false);
      stats := Some(found);
    }
    var arq := new ArqSync.Arq(hard, status);
    wrote, failed := arq.SyncResourceQuota(cl.tracked, stats, fate.rq, fate.lookupFails, fate.refused);
    newUsed := ArqSync.OrEmpty(arq.status.used);
    ArqSync.SyncRecordsUsage(cl, podCache, i, cached, status, stats, fate.rq);
    if stats.None? && !ArqSync.CalculationFails(cl.tracked, hard, stats) {
      assert forall r | r in hard && Metered(cl, r) :: r in hard.Keys * cl.tracked;
    }
  }

  /** What the ACRQ controller meets: whether the quota is missing from the lister, its status
      there, the managed quota, and what fails. */
  datatype ClusterFate = ClusterFate(
    missing: bool, status: ClusterAccounting.Status, mapperCurrent: bool, collects: bool,
    finding: ClusterAccounting.Finding, evaluationFails: bool, refused: bool)

  predicate ClusterSmooth(fate: ClusterFate) {
    !fate.missing && fate.mapperCurrent && !fate.finding.Failing? && !fate.evaluationFails && !fate.refused
  }

  /** The status is the one in the cache; its slices are of this namespace and add up. */
  ghost predicate PlausibleClusterFate(fate: ClusterFate, ns: string, cached: ResourceList) {
    && fate.status.total == cached
    && ClusterAccounting.DistinctSlices(fate.status.slices)
    && ClusterAccounting.Conserved(fate.status.total, fate.status.slices)
    && (forall slice | slice in fate.status.slices :: slice.namespace == ns)
    && ClusterSync.ReportsNonSchedulable(fate.finding)
  }

  method RecountAcrq(cl: Cluster, podCache: Pods, i: nat, ns: string, fate: ClusterFate)
    returns (newUsed: ResourceList, wrote: bool, failed: bool)
    requires i < |cl.quotas| && PlausibleClusterFate(fate, ns, fate.status.total)
    ensures SyncResult(cl, podCache, i, fate.status.total, newUsed, wrote, failed)
    ensures (fate.refused ==> !wrote) && (!wrote ==> newUsed == fate.status.total) && (ClusterSmooth(fate) ==> !failed)
  {
    if fate.missing {
      return fate.status.total, false, true;
    }
    var hard := cl.quotas[i].hard;
    var view := ClusterAccounting.View(hard, {ns});
    var stats := None;
    if !fate.evaluationFails {
      var found := ArqSync.UsageStats(podCache, i, hard.Keys * cl.tracked, false);
      stats := Some(found);
    }
    var observed := if ArqSync.CalculationFails(cl.tracked, hard, stats) then None
                    else Some(ArqSync.CalculateUsage(cl.tracked, hard, stats));
    var items := [ClusterAccounting.WorkItem(ns, true)];
    var stored, retry;
    stored, failed, retry := ClusterAccounting.SyncQuotaForNamespaces(
      view, fate.mapperCurrent, fate.status, items, [observed], fate.collects, [fate.finding], fate.refused);
    newUsed, wrote := stored.total, stored != fate.status;
    ClusterSync.ForcedSyncOutcome(cl, podCache, i, view, fate.status, ns, stats, observed, fate.collects, fate.finding);
    assert ClusterAccounting.ActualUsages(fate.collects, [fate.finding], fate.status, items, [observed])
        == [ClusterAccounting.Actual(fate.collects, fate.finding, fate.status, items[0], observed)];
  }

  predicate AllSmooth(cl: Cluster, fates: seq<Fate>)
    requires |fates| == |cl.quotas|
  {
    forall i | i in QuotasOf(cl, ArqLock) :: Smooth(fates[i])
  }

  predicate AllClusterSmooth(cl: Cluster, known: set<nat>, fates: seq<ClusterFate>)
    requires |fates| == |cl.quotas| && known <= QuotasOf(cl, AcrqLock)
  {
    forall i | i in known :: ClusterSmooth(fates[i])
  }

  ghost predicate AllPlausible(cl: Cluster, ns: string, usedCache: seq<ResourceList>, known: set<nat>,
                               fates: seq<ClusterFate>)
    requires |usedCache| == |fates| == |cl.quotas| && known <= QuotasOf(cl, AcrqLock)
  {
    forall i | i in known :: PlausibleClusterFate(fates[i], ns, usedCache[i])
  }

  ghost predicate AllRecorded(cl: Cluster, podCache: Pods, used: seq<ResourceList>, quotas: set<nat>) {
    |used| == |cl.quotas| && forall i | i in quotas :: i < |used| && Recounts(cl, podCache, i, used[i])
  }

  lemma OneMoreRecorded(cl: Cluster, podCache: Pods, before: seq<ResourceList>, after: seq<ResourceList>,
                        quotas: set<nat>, todo: set<nat>, i: nat)
    requires AllRecorded(cl, podCache, before, quotas - todo) && i < |before| == |after|
    requires forall k | 0 <= k < |after| && k != i :: after[k] == before[k]
    requires Recounts(cl, podCache, i, after[i])
    ensures AllRecorded(cl, podCache, after, quotas - (todo - {i}))
  {
    forall j | j in quotas - (todo - {i})
      ensures j < |after| && Recounts(cl, podCache, j, after[j])
    {
      assert j == i || j in quotas - todo;
    }
  }

  // ---------------------------------------------------------------- its place in the machine

  /** A sync of quota i as the machine shows it. */
  function Synced(s: State, lock: Lock, i: nat, newUsed: ResourceList, failed: bool): State
    requires i < |s.used| && lock in s.workers && s.workers[lock].Syncing?
  {
    var w := s.workers[lock];
    s.(used := s.used[i := newUsed], workers := s.workers[lock := if failed then Resting else w.(todo := w.todo - {i})])
  }

  /** Storing a recount is a step of the worker; an error after it, or instead of it, ends the
      worker's round. */
  lemma SyncLeads(cl: Cluster, env: Environment, s: State, lock: Lock, i: nat, newUsed: ResourceList, failed: bool)
    requires i < |s.used| == |cl.quotas| && (env.podCacheLags || s.podCache == s.pods)
    requires lock in s.workers && s.workers[lock].Syncing? && i in s.workers[lock].todo
    requires Recounts(cl, s.podCache, i, newUsed) || (failed && Keeps(cl, i, s.used[i], newUsed))
    ensures Leads(cl, env, s, Synced(s, lock, i, newUsed, failed))
  {
    LeadsHere(cl, env, s);
    if Recounts(cl, s.podCache, i, newUsed) {
      var step := WorkerSync(lock, i, newUsed, false);
      assert Can(cl, env, s, step);
      LeadsStep(cl, env, s, s, step);
      if failed {
        var mid := Synced(s, lock, i, newUsed, false);
        StopLeads(cl, env, s, mid, lock);
        assert mid.workers[lock := Resting] == s.workers[lock := Resting];
      }
    } else {
      var step := WorkerSync(lock, i, newUsed, true);
      assert Can(cl, env, s, step);
      LeadsStep(cl, env, s, s, step);
    }
  }

  lemma StopLeads(cl: Cluster, env: Environment, s: State, mid: State, lock: Lock)
    requires Leads(cl, env, s, mid) && lock in mid.workers && mid.workers[lock].Syncing?
    ensures Leads(cl, env, s, mid.(workers := mid.workers[lock := Resting]))
  {
    assert Can(cl, env, mid, WorkerStop(lock));
    LeadsStep(cl, env, s, mid, WorkerStop(lock));
  }

  /** So does a sync that writes nothing, because of an error, or because the recount is what it
      began with, up to date or not. */
  lemma SkipLeads(cl: Cluster, env: Environment, s: State, lock: Lock, i: nat, failed: bool)
    requires i < |s.used| == |s.usedCache| == |cl.quotas| && (env.podCacheLags || s.podCache == s.pods)
    requires lock in s.workers && s.workers[lock].Syncing? && i in s.workers[lock].todo
    requires env.syncCacheLags || s.usedCache[i] == s.used[i]
    requires failed || Recounts(cl, s.podCache, i, s.usedCache[i])
    ensures Leads(cl, env, s, Synced(s, lock, i, s.used[i], failed))
  {
    if failed || s.usedCache[i] == s.used[i] {
      SyncLeads(cl, env, s, lock, i, s.used[i], failed);
    } else {
      LeadsHere(cl, env, s);
      assert Can(cl, env, s, WorkerSkip(lock, i));
      LeadsStep(cl, env, s, s, WorkerSkip(lock, i));
      assert s.used[i := s.used[i]] == s.used;
    }
  }

  /** A lock seen held can be cleared: that version is current, and its queue released. */
  predicate Unlockable(s: State, lock: Lock, seen: Option<nat>)
    requires seen.Some? ==> seen.value < |s.history|
  {
    seen.Some? && Held(s.history[seen.value], lock) ==>
      IsCurrent(s.history, seen.value) && Verified(s.podCache, s.pods, s.history[seen.value].queue)
  }

  /** What may happen to a pod while names are being released. */
  predicate Ungating(before: Pod, after: Pod, named: bool) {
    after == before || (named && Releasable(before) && after == before.(gates := []))
  }

  /** Only pods of `names` changed, and only by losing the AAQ gate; without failure every
      one of them that the cache shows gated is ungated. */
  ghost predicate Released(podCache: Pods, before: Pods, after: Pods, names: seq<string>, failed: bool) {
    && after.Keys == before.Keys
    && (forall name | name in after :: Ungating(before[name], after[name], name in names))
    && (!failed ==> forall name | name in names && name in podCache && Releasable(podCache[name]) ::
          name in after && after[name].gates == [])
  }

  lemma ReleasedOneMore(podCache: Pods, before: Pods, mid: Pods, after: Pods, names: seq<string>, k: nat, failed: bool)
    requires k < |names| && Released(podCache, before, mid, names[..k], false)
    requires var due := names[k] in podCache && Releasable(podCache[names[k]]);
             && failed == (due && !(names[k] in mid && mid[names[k]] == podCache[names[k]]))
             && after == if due && !failed then mid[names[k] := mid[names[k]].(gates := [])] else mid
    ensures Released(podCache, before, after, names[..k + 1], failed)
  {
    assert names[..k + 1] == names[..k] + [names[k]];
  }

  lemma ReleasedMore(podCache: Pods, before: Pods, after: Pods, names: seq<string>, k: nat)
    requires k <= |names| && Released(podCache, before, after, names[..k], true)
    ensures Released(podCache, before, after, names, true)
  {
    assert forall name | name in names[..k] :: name in names;
  }

  /** Every relevant lock is clear. */
  method AaqjqcProcessed(cl: Cluster, jq: JobQueue) returns (processed: bool)
    ensures processed == Processed(cl, jq)
  {
    if jq.locks.None? {
      return true;
    }
    var locks := jq.locks.value;
    var todo := locks.Keys;
    while todo != {}
      invariant todo <= locks.Keys
      invariant forall lock | lock in locks.Keys - todo && Enabled(cl, lock) :: !locks[lock]
      decreases todo
    {
      var lock :| lock in todo;
      todo := todo - {lock};
      if lock.AcrqLock? && !cl.clusterQuotas {
        continue;
      }
      if locks[lock] {
        assert Held(jq, lock) && Enabled(cl, lock);
        return false;
      }
    }
    return true;
  }

  lemma {:induction false} OfferedDistinct(cl: Cluster, known: set<nat>, pods: Pods, listing: seq<string>)
    requires Distinct(listing) && forall name | name in listing :: name in pods
    ensures Distinct(Admission.Names(Offered(cl, known, pods, listing)))
    ensures forall c | c in Offered(cl, known, pods, listing) :: c.name in listing
  {
    if listing != [] {
      OfferedDistinct(cl, known, pods, listing[1..]);
    }
  }

  lemma {:induction false} GreedyDistinct(tracked: set<string>, quotas: seq<Admission.Quota>,
                                          offered: seq<Admission.Candidate>)
    requires Distinct(Admission.Names(offered))
    ensures Distinct(Admission.Names(Admission.Greedy(tracked, quotas, offered).accepted))
    ensures forall c | c in Admission.Greedy(tracked, quotas, offered).accepted :: c in offered
  {
    if offered != [] {
      var n := |offered| - 1;
      assert Admission.Names(offered[..n]) == Admission.Names(offered)[..n];
      GreedyDistinct(tracked, quotas, offered[..n]);
      var accepted := Admission.Greedy(tracked, quotas, offered[..n]).accepted;
      forall k | 0 <= k < |accepted|
        ensures accepted[k].name != offered[n].name
      {
        assert accepted[k] in offered[..n];
        var j :| 0 <= j < n && offered[j] == accepted[k];
        assert Admission.Names(offered)[j] != Admission.Names(offered)[n];
      }
    }
  }

  lemma BatchDistinct(cl: Cluster, known: set<nat>, snapshot: seq<ResourceList>, pods: Pods, listing: seq<string>)
    requires |snapshot| == |cl.quotas| && Lists(pods, listing)
    ensures Distinct(Admission.Names(DecideBatch(cl, known, snapshot, pods, listing).accepted))
  {
    OfferedDistinct(cl, known, pods, listing);
    GreedyDistinct(cl.tracked, GateQuotas(cl, snapshot), Offered(cl, known, pods, listing));
  }

  /** No queue committed or about to be committed names a pod twice. */
  ghost predicate QueuesDistinct(s: State) {
    && (forall v | 0 <= v < |s.history| :: Distinct(s.history[v].queue))
    && (s.gate.Chosen? ==> Distinct(s.gate.queue))
  }

  lemma StepKeepsDistinct(cl: Cluster, env: Environment, s: State, step: Step)
    requires QueuesDistinct(s) && Can(cl, env, s, step)
    ensures QueuesDistinct(Do(cl, env, s, step))
  {
    if step.GateDecide? {
      BatchDistinct(cl, step.known, s.gate.snapshot, s.podCache, step.listing);
    }
  }

  lemma {:induction false} RunKeepsDistinct(cl: Cluster, env: Environment, s: State, steps: seq<Step>, end: State)
    requires QueuesDistinct(s) && Runs(cl, env, s, steps, end)
    ensures QueuesDistinct(end)
    decreases |steps|
  {
    if steps != [] {
      StepKeepsDistinct(cl, env, s, steps[0]);
      RunKeepsDistinct(cl, env, Do(cl, env, s, steps[0]), steps[1..], end);
    }
  }

  /** In every run of every environment a committed queue names no pod twice. */
  lemma QueuesAreDistinct(cl: Cluster, env: Environment, s: State, version: nat)
    requires Reachable(cl, env, s) && version < |s.history|
    ensures Distinct(s.history[version].queue)
  {
    var start, steps :| Init(cl, start) && Runs(cl, env, start, steps, s);
    RunKeepsDistinct(cl, env, start, steps, s);
  }
}
