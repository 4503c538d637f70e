/** Recomputing and recording the usage of one ApplicationAwareResourceQuota. */
module ArqSync {
  import opened Resources
  import opened Handshake
  import opened HandshakeSafety

  // ---------------------------------------------------------------- usage of a namespace

  /** Sums the charges of the ungated pods that match the quota's scopes, starting from zero
      for every resource asked for. A scope selector that does not parse ends it at the first
      pod, with what it has by then and no error. */
  method UsageStats(pods: Pods, i: nat, resources: set<string>, malformed: bool) returns (used: ResourceList)
    ensures resources <= used.Keys
    ensures malformed ==> used == map r | r in resources :: 0
    ensures !malformed ==> forall r :: Get(used, r) == Usage(pods, i, r)
  {
    used := map r | r in resources :: 0;
    var todo := pods.Keys;
    assert pods - todo == map[];
    while todo != {}
      invariant todo <= pods.Keys && resources <= used.Keys
      invariant forall r :: Get(used, r) == Usage(pods - todo, i, r)
      invariant malformed ==> used == map r | r in resources :: 0
      decreases todo
    {
      var name :| name in todo;
      if malformed {
        return;
      }
      var pod := pods[name];
      if i in pod.scopes {
        used := Add(used, if pod.gates == [] then Effective(pod) else map[]);
      }
      forall r
        ensures Usage(pods - (todo - {name}), i, r)
             == Usage(pods - todo, i, r) + if pod.gates == [] then ChargeOf(pod, i, r) else 0
      {
        TotalChange(Contributions(pods - todo, {}, i, r), Contributions(pods - (todo - {name}), {}, i, r), name);
      }
      todo := todo - {name};
    }
    assert pods - {} == pods;
  }

  /** The observed usage, restricted to the resources that are both limited and tracked; a
      failed evaluation observes nothing. */
  function CalculateUsage(tracked: set<string>, hard: ResourceList, stats: Option<ResourceList>): ResourceList {
    match stats
    case None => map[]
    case Some(used) => Mask(used, hard.Keys * tracked)
  }

  predicate CalculationFails(tracked: set<string>, hard: ResourceList, stats: Option<ResourceList>) {
    stats.None? && hard.Keys * tracked != {}
  }

  // ---------------------------------------------------------------- one sync

  /** A status as the API server stores it: an empty list reads back as missing. */
  datatype Status = Status(hard: Option<ResourceList>, used: Option<ResourceList>)

  predicate Stored(status: Status) {
    status.hard != Some(map[]) && status.used != Some(map[])
  }

  function Store(a: ResourceList): Option<ResourceList> {
    if a == map[] then None else Some(a)
  }

  function OrEmpty(a: Option<ResourceList>): ResourceList {
    match a
    case None => map[]
    case Some(list) => list
  }

  /** The managed ResourceQuota that enforces the non-schedulable part of the limits. */
  datatype ManagedQuota = ManagedQuota(hard: ResourceList, statusHard: Option<ResourceList>, used: Option<ResourceList>)

  /** Its usage is merged only while it enforces the non-schedulable part of the limits
      already recorded in the status. */
  predicate Merges(recordedHard: Option<ResourceList>, rq: Option<ManagedQuota>) {
    && rq.Some? && rq.value.statusHard.Some? && recordedHard.Some?
    && rq.value.hard == NonSchedulable(recordedHard.value)
    && rq.value.used.Some?
  }

  function Observed(recordedHard: Option<ResourceList>, newUsage: ResourceList,
                    rq: Option<ManagedQuota>): ResourceList {
    if Merges(recordedHard, rq) then newUsage + rq.value.used.value else newUsage
  }

  /** The usage to record: past usage overwritten by what is observed, within the limits' keys. */
  function NextUsed(hard: ResourceList, status: Status, newUsage: ResourceList,
                    rq: Option<ManagedQuota>): ResourceList {
    Mask(OrEmpty(status.used) + Observed(status.hard, newUsage, rq), hard.Keys)
  }

  predicate Dirty(hard: ResourceList, status: Status, newUsage: ResourceList, rq: Option<ManagedQuota>) {
    || hard != OrEmpty(status.hard) || status.hard.None? || status.used.None?
    || NextUsed(hard, status, newUsage, rq) != OrEmpty(status.used)
  }

  function NextStatus(hard: ResourceList, status: Status, newUsage: ResourceList, rq: Option<ManagedQuota>): Status {
    if Dirty(hard, status, newUsage, rq)
    then Status(Store(hard), Store(NextUsed(hard, status, newUsage, rq)))
    else status
  }

  class Arq {
    const hard: ResourceList
    var status: Status

    constructor (hard: ResourceList, status: Status)
      ensures this.hard == hard && this.status == status
    {
      this.hard := hard;
      this.status := status;
    }

    /** One sync. The write may be refused; the status is then left alone. When the managed
        quota cannot be looked up the sync goes on without it and reports the error. */
    method SyncResourceQuota(tracked: set<string>, stats: Option<ResourceList>, rq: Option<ManagedQuota>,
                             lookupFails: bool, refused: bool)
      returns (wrote: bool, failed: bool)
      requires lookupFails ==> rq.None?
      modifies this`status
      ensures var newUsage := CalculateUsage(tracked, hard, stats);
              && status == (if refused then old(status) else NextStatus(hard, old(status), newUsage, rq))
              && wrote == (!refused && Dirty(hard, old(status), newUsage, rq))
              && failed == (CalculationFails(tracked, hard, stats) || lookupFails
                            || (refused && Dirty(hard, old(status), newUsage, rq)))
    {
      var dirty := hard != OrEmpty(status.hard) || status.hard.None? || status.used.None?;
      var used := OrEmpty(status.used);
      ghost var pastUsed := used;
      ghost var calculated := CalculateUsage(tracked, hard, stats);
      var newUsage := CalculateUsage(tracked, hard, stats);
      failed := CalculationFails(tracked, hard, stats) || lookupFails;
      if rq.Some? && rq.value.statusHard.Some? && status.hard.Some? {
        newUsage := UpdateUsageFromResourceQuota(status.hard.value, rq.value, newUsage);
      }
      assert newUsage == Observed(status.hard, calculated, rq);
      used := Overwrite(used, newUsage);
      used := Mask(used, hard.Keys);
      dirty := dirty || used != OrEmpty(status.used);
      wrote := false;
      if dirty {
        if refused {
          failed := true;
        } else {
          status := Status(Store(hard), Store(used));
          wrote := true;
        }
      }
    }
  }

  /** Copies every entry of `from` into `into`. */
  method Overwrite(into: ResourceList, from: ResourceList) returns (out: ResourceList)
    ensures out == into + from
  {
    out := into;
    var todo := from.Keys;
    while todo != {}
      invariant todo <= from.Keys
      invariant out == into + (from - todo)
      decreases todo
    {
      var r :| r in todo;
      out := out[r := from[r]];
      todo := todo - {r};
    }
    assert from - {} == from;
  }

  method UpdateUsageFromResourceQuota(recordedHard: ResourceList, rq: ManagedQuota, newUsage: ResourceList)
    returns (out: ResourceList)
    ensures out == if rq.hard == NonSchedulable(recordedHard) && rq.used.Some?
                   then newUsage + rq.used.value
                   else newUsage
  {
    out := newUsage;
    var nonSchedulable := FilterNonSchedulableResources(recordedHard);
    if rq.hard == nonSchedulable && rq.used.Some? {
      out := Overwrite(out, rq.used.value);
    }
  }

  // ---------------------------------------------------------------- syncs settle

  /** The status after n syncs with unchanged pods, limits and managed quota. */
  function After(n: nat, hard: ResourceList, status: Status, newUsage: ResourceList, rq: Option<ManagedQuota>): Status {
    if n == 0 then status
    else NextStatus(hard, After(n - 1, hard, status, newUsage, rq), newUsage, rq)
  }

  /** A sync always leaves the limits recorded, and recorded usage within their keys. */
  lemma SyncRecords(hard: ResourceList, status: Status, newUsage: ResourceList, rq: Option<ManagedQuota>)
    requires hard != map[] && Stored(status)
    ensures NextStatus(hard, status, newUsage, rq) == Status(Some(hard), Store(NextUsed(hard, status, newUsage, rq)))
    ensures OrEmpty(NextStatus(hard, status, newUsage, rq).used).Keys <= hard.Keys
  {
  }

  /** With the limits already recorded one sync reaches a status the next one keeps. */
  lemma SecondSyncKeeps(hard: ResourceList, status: Status, newUsage: ResourceList, rq: Option<ManagedQuota>)
    requires hard != map[] && Stored(status) && status.hard == Some(hard)
    ensures var next := NextStatus(hard, status, newUsage, rq);
            && NextStatus(hard, next, newUsage, rq) == next
            && (Dirty(hard, next, newUsage, rq) <==> next.used.None?)
  {
    var next := NextStatus(hard, status, newUsage, rq);
    SyncRecords(hard, status, newUsage, rq);
    assert NextUsed(hard, next, newUsage, rq) == NextUsed(hard, status, newUsage, rq);
  }

  /** From any stored status two syncs reach a status that no later sync changes; later
      syncs do not even write it, unless there is nothing to record at all. */
  lemma {:induction false} SyncSettles(n: nat, hard: ResourceList, status: Status, newUsage: ResourceList,
                                       rq: Option<ManagedQuota>)
    requires hard != map[] && Stored(status) && n >= 2
    ensures After(n, hard, status, newUsage, rq) == After(2, hard, status, newUsage, rq)
    ensures OrEmpty(After(n, hard, status, newUsage, rq).used).Keys <= hard.Keys
    ensures Dirty(hard, After(n, hard, status, newUsage, rq), newUsage, rq)
       <==> After(2, hard, status, newUsage, rq).used.None?
  {
    var once := NextStatus(hard, status, newUsage, rq);
    SyncRecords(hard, status, newUsage, rq);
    SyncRecords(hard, once, newUsage, rq);
    SecondSyncKeeps(hard, once, newUsage, rq);
    assert After(1, hard, status, newUsage, rq) == once;
    if n > 2 {
      SyncSettles(n - 1, hard, status, newUsage, rq);
    }
  }

  /** Merging now and merging once the limits are recorded come to the same. */
  predicate MergeMakesNoDifference(hard: ResourceList, status: Status, newUsage: ResourceList,
                                   rq: Option<ManagedQuota>) {
    var past := OrEmpty(status.used) + newUsage;
    if Merges(status.hard, rq) == Merges(Some(hard), rq) then true
    else if Merges(Some(hard), rq) then
      forall r | r in rq.value.used.value && r in hard :: r in past && past[r] == rq.value.used.value[r]
    else
      forall r | r in rq.value.used.value && r in newUsage && r in hard :: newUsage[r] == rq.value.used.value[r]
  }

  lemma NextUsedTwice(hard: ResourceList, status: Status, newUsage: ResourceList, rq: Option<ManagedQuota>)
    requires hard != map[] && Stored(status)
    ensures var once := NextStatus(hard, status, newUsage, rq);
            NextUsed(hard, once, newUsage, rq) == NextUsed(hard, status, newUsage, rq)
            <==> MergeMakesNoDifference(hard, status, newUsage, rq)
  {
    var once := NextStatus(hard, status, newUsage, rq);
    SyncRecords(hard, status, newUsage, rq);
    var first, second := NextUsed(hard, status, newUsage, rq), NextUsed(hard, once, newUsage, rq);
    assert second == Mask(first + Observed(Some(hard), newUsage, rq), hard.Keys);
    if MergeMakesNoDifference(hard, status, newUsage, rq) {
      forall r
        ensures r in first <==> r in second
        ensures r in first && r in second ==> first[r] == second[r]
      {
      }
    } else if Merges(Some(hard), rq) {
      var r :| r in rq.value.used.value && r in hard
        && !(r in OrEmpty(status.used) + newUsage && (OrEmpty(status.used) + newUsage)[r] == rq.value.used.value[r]);
      assert r in second && second[r] == rq.value.used.value[r];
    } else {
      var r :| r in rq.value.used.value && r in newUsage && r in hard && newUsage[r] != rq.value.used.value[r];
      assert r in first && first[r] == rq.value.used.value[r] && second[r] == newUsage[r];
    }
  }

  /** One sync is enough exactly when the merge that the recorded limits allow now and the one
      that the new limits will allow come to the same. */
  lemma OneSyncSettlesExactly(hard: ResourceList, status: Status, newUsage: ResourceList, rq: Option<ManagedQuota>)
    requires hard != map[] && Stored(status)
    ensures (forall n: nat | n >= 1 :: After(n, hard, status, newUsage, rq) == After(1, hard, status, newUsage, rq))
       <==> MergeMakesNoDifference(hard, status, newUsage, rq)
  {
    var once := NextStatus(hard, status, newUsage, rq);
    SyncRecords(hard, status, newUsage, rq);
    SyncRecords(hard, once, newUsage, rq);
    NextUsedTwice(hard, status, newUsage, rq);
    assert After(1, hard, status, newUsage, rq) == once;
    assert After(2, hard, status, newUsage, rq) == NextStatus(hard, once, newUsage, rq);
    if MergeMakesNoDifference(hard, status, newUsage, rq) {
      forall n: nat | n >= 1
        ensures After(n, hard, status, newUsage, rq) == once
      {
        if n >= 2 {
          SyncSettles(n, hard, status, newUsage, rq);
        }
      }
    } else {
      assert NextUsed(hard, once, newUsage, rq) != NextUsed(hard, status, newUsage, rq);
      assert After(2, hard, status, newUsage, rq) != After(1, hard, status, newUsage, rq);
    }
  }

  /** It is not while the limits are not recorded yet: the managed quota's usage enters only
      with the second sync. */
  lemma OneSyncIsNotEnough()
    ensures var hard := map["persistentvolumeclaims" := 5];
            var rq := Some(ManagedQuota(hard, Some(hard), Some(map["persistentvolumeclaims" := 2])));
            && After(1, hard, Status(None, None), map[], rq) == Status(Some(hard), None)
            && After(2, hard, Status(None, None), map[], rq)
                 == Status(Some(hard), Some(map["persistentvolumeclaims" := 2]))
  {
    var pvc := "persistentvolumeclaims";
    var hard := map[pvc := 5];
    var status := Status(None, None);
    var rq := Some(ManagedQuota(hard, Some(hard), Some(map[pvc := 2])));
    assert !IsSchedulable(pvc) by {
      assert pvc[0] == 'p' && "requests."[0] == 'r' && "limits."[0] == 'l' && |pvc| == 22;
    }
    assert pvc in hard && NonSchedulable(hard) == hard;
    var once := After(1, hard, status, map[], rq);
    assert After(0, hard, status, map[], rq) == status;
    assert NextUsed(hard, status, map[], rq) == map[];
    assert once == NextStatus(hard, status, map[], rq) == Status(Some(hard), None);
    assert NextUsed(hard, once, map[], rq) == map[pvc := 2];
    assert After(2, hard, status, map[], rq) == NextStatus(hard, once, map[], rq);
  }

  // ---------------------------------------------------------------- the handshake's recording step

  /** The managed quota reports non-schedulable resources only. */
  predicate ReportsNonSchedulable(rq: Option<ManagedQuota>) {
    rq.Some? && rq.value.used.Some? ==> forall r | r in rq.value.used.value :: !IsSchedulable(r)
  }

  /** A sync is a recording step of the handshake: with the evaluator's statistics over the
      cached pods it stores the recount, and without them it keeps what was recorded. */
  lemma SyncRecordsUsage(cl: Cluster, podCache: Pods, i: nat, recorded: ResourceList, status: Status,
                         stats: Option<ResourceList>, rq: Option<ManagedQuota>)
    requires i < |cl.quotas| && recorded == OrEmpty(status.used) && Stored(status) && ReportsNonSchedulable(rq)
    requires stats.Some? ==> && cl.quotas[i].hard.Keys * cl.tracked <= stats.value.Keys
                             && forall r :: Get(stats.value, r) == Usage(podCache, i, r)
    ensures var hard := cl.quotas[i].hard;
            var used := OrEmpty(NextStatus(hard, status, CalculateUsage(cl.tracked, hard, stats), rq).used);
            if stats.Some? then Recounts(cl, podCache, i, used) else Keeps(cl, i, recorded, used)
  {
    var hard := cl.quotas[i].hard;
    var newUsage := CalculateUsage(cl.tracked, hard, stats);
    var used := NextUsed(hard, status, newUsage, rq);
    assert OrEmpty(NextStatus(hard, status, newUsage, rq).used) == used;
    forall r | r in hard && Metered(cl, r)
      ensures stats.Some? ==> r in used && used[r] == Usage(podCache, i, r)
      ensures stats.None? ==> Get(used, r) == Get(recorded, r) && (r in used <==> r in recorded)
    {
      assert r in Observed(status.hard, newUsage, rq) <==> r in newUsage;
      if stats.Some? {
        assert r in hard.Keys * cl.tracked && r in newUsage;
        assert newUsage[r] == Get(stats.value, r);
      }
    }
  }
}
