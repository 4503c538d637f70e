/** The sync of a cluster quota, seen from the handshake of a namespace. */
module ClusterSync {
  import opened Resources
  import opened Handshake
  import ArqSync
  import opened ClusterAccounting

  /** The managed ClusterResourceQuota is created for the non-schedulable limits only. */
  predicate ReportsNonSchedulable(finding: Finding) {
    finding.Found? && finding.managed.Some? ==>
      forall slice | slice in finding.managed.value.slices :: forall r | r in slice.used :: !IsSchedulable(r)
  }

  lemma {:induction false} PruneKeepsKeys(view: View, p: Progress, copy: seq<Slice>)
    ensures p.total.Keys <= Prune(view, p, copy).total.Keys
  {
    if copy != [] {
      PruneKeepsKeys(view, p, copy[..|copy| - 1]);
    }
  }

  /** With one matching namespace a forced sync makes the total that namespace's usage. */
  lemma ForcedSyncTotal(view: View, status: Status, ns: string, usage: ResourceList)
    requires view.matching == {ns} && DistinctSlices(status.slices) && Conserved(status.total, status.slices)
    ensures var p := Outcome(view, status, [WorkItem(ns, true)], [Some(usage)]);
            && p.retry == [] && usage.Keys <= p.total.Keys
            && forall r :: Get(p.total, r) == Get(usage, r)
  {
    var items, usages := [WorkItem(ns, true)], [Some(usage)];
    var start := Progress(status.total, status.slices, []);
    var known := map[ns := usage];
    IncrementalIsBatch(view, status, items, usages, known);
    var p := Outcome(view, status, items, usages);
    var applied := ApplyItems(view, start, items, usages);
    assert ApplyItems(view, start, items[..|items| - 1], usages[..|items| - 1]) == start;
    assert usage.Keys <= applied.total.Keys;
    PruneKeepsKeys(view, applied, applied.slices);
    forall r
      ensures Get(p.total, r) == Get(usage, r)
    {
      var batch := map n | n in view.matching :: Get(BatchSlice(view, known, n).used, r);
      TotalSplit(batch, ns);
      assert batch - {ns} == map[];
      assert Drift(status.total, status.slices, r) == 0;
    }
  }

  /** A cluster quota that selects this namespace alone: the forced sync the controller runs
      while it holds the namespace's lock leaves the total at the usage of the namespace's
      ungated pods, as the handshake's recording step asks. */
  lemma ForcedSyncRecounts(cl: Cluster, podCache: Pods, i: nat, view: View, status: Status, ns: string,
                           stats: ResourceList, collects: bool, finding: Finding)
    requires i < |cl.quotas| && view.hard == cl.quotas[i].hard && view.matching == {ns}
    requires DistinctSlices(status.slices) && Conserved(status.total, status.slices)
    requires ReportsNonSchedulable(finding)
    requires view.hard.Keys * cl.tracked <= stats.Keys && forall r :: Get(stats, r) == Usage(podCache, i, r)
    ensures var item := WorkItem(ns, true);
            var observed := Some(ArqSync.CalculateUsage(cl.tracked, view.hard, Some(stats)));
            var p := Outcome(view, status, [item], [Actual(collects, finding, status, item, observed)]);
            p.retry == [] && Recounts(cl, podCache, i, p.total)
  {
    var observed := ArqSync.CalculateUsage(cl.tracked, view.hard, Some(stats));
    var usage := Merged(collects, finding, status, ns, observed);
    ForcedSyncTotal(view, status, ns, usage);
    var total := Outcome(view, status, [WorkItem(ns, true)], [Some(usage)]).total;
    forall r | r in view.hard && Metered(cl, r)
      ensures r in total && total[r] == Usage(podCache, i, r)
    {
      assert r in view.hard.Keys * cl.tracked && r in observed && observed[r] == Get(stats, r);
      if Merges(collects, finding, status) {
        LookupFinds(finding.managed.value.slices, ns);
        assert r !in UsedIn(finding.managed.value.slices, ns);
      }
    }
  }

  lemma {:induction false} PruneNothing(view: View, p: Progress, copy: seq<Slice>)
    requires forall slice | slice in copy :: slice.namespace in view.matching
    ensures Prune(view, p, copy) == p
  {
    if copy != [] {
      PruneNothing(view, p, copy[..|copy| - 1]);
    }
  }

  /** Whatever becomes of the calculation, the forced sync either records a recount or, with an
      item to retry, keeps the total as it was. */
  lemma ForcedSyncOutcome(cl: Cluster, podCache: Pods, i: nat, view: View, status: Status, ns: string,
                          stats: Option<ResourceList>, observed: Option<ResourceList>, collects: bool, finding: Finding)
    requires i < |cl.quotas| && view.hard == cl.quotas[i].hard && view.matching == {ns}
    requires DistinctSlices(status.slices) && Conserved(status.total, status.slices)
    requires forall slice | slice in status.slices :: slice.namespace == ns
    requires ReportsNonSchedulable(finding)
    requires stats.Some? ==> view.hard.Keys * cl.tracked <= stats.value.Keys
    requires stats.Some? ==> forall r :: Get(stats.value, r) == Usage(podCache, i, r)
    requires observed == if ArqSync.CalculationFails(cl.tracked, view.hard, stats) then None
                         else Some(ArqSync.CalculateUsage(cl.tracked, view.hard, stats))
    ensures var item := WorkItem(ns, true);
            var p := Outcome(view, status, [item], [Actual(collects, finding, status, item, observed)]);
            if observed.Some? then p.retry == [] && Recounts(cl, podCache, i, p.total)
            else p.retry != [] && p.total == status.total
  {
    var usage := Actual(collects, finding, status, WorkItem(ns, true), observed);
    var items, usages := [WorkItem(ns, true)], [usage];
    if stats.Some? {
      ForcedSyncRecounts(cl, podCache, i, view, status, ns, stats.value, collects, finding);
    } else if observed.Some? {
      ForcedSyncTotal(view, status, ns, usage.value);
      assert forall r | r in view.hard && Metered(cl, r) :: r in view.hard.Keys * cl.tracked;
    } else {
      var start := Progress(status.total, status.slices, []);
      assert ApplyItems(view, start, items[..|items| - 1], usages[..|items| - 1]) == start;
      var applied := ApplyItems(view, start, items, usages);
      assert applied == start.(retry := [items[0]]);
      PruneNothing(view, applied, applied.slices);
    }
  }
}
