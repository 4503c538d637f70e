/** What follows from the gate dropping the scopes of ARQs: a pod is checked against quotas
    it will never be counted in. The mapper is up to date here. */
module ScopedQuotas {
  import opened Resources
  import opened Handshake
  import Admission

  /** What the gate asks for, knowing every cluster quota. */
  function GateRequest(cl: Cluster, pod: Pod): Admission.Request {
    RequestOf(cl, QuotasOf(cl, AcrqLock), pod)
  }

  function GateBatch(cl: Cluster, snapshot: seq<ResourceList>, pods: Pods, listing: seq<string>): Admission.Batch
    requires |snapshot| == |cl.quotas|
    requires forall n | n in listing :: n in pods
  {
    DecideBatch(cl, QuotasOf(cl, AcrqLock), snapshot, pods, listing)
  }

  /** The pod checked against the quotas it counts in, and no others. */
  function OwnRequest(pod: Pod): Admission.Request {
    Admission.Request(Effective(pod), pod.scopes)
  }

  /** An ARQ the pod does not count in would turn it down. */
  ghost predicate ForeignQuotaIsShort(cl: Cluster, quotas: seq<Admission.Quota>, pod: Pod) {
    exists i :: && i in QuotasOf(cl, ArqLock) && i !in pod.scopes && i < |quotas|
                && Admission.Short(cl.tracked, quotas[i], Effective(pod))
  }

  /** The gate refuses a pod that its own quotas would accept exactly when an ARQ whose scopes
      the pod does not satisfy has no usage recorded or no room. */
  lemma ForeignQuotasRefuse(cl: Cluster, quotas: seq<Admission.Quota>, pod: Pod)
    requires Admission.CheckRequest(cl.tracked, quotas, OwnRequest(pod)).Some?
    ensures Admission.CheckRequest(cl.tracked, quotas, GateRequest(cl, pod)) == None <==>
            ForeignQuotaIsShort(cl, quotas, pod)
  {
    Admission.MoreScopes(cl.tracked, quotas, Effective(pod), pod.scopes, QuotasOf(cl, ArqLock));
    assert CheckedAgainst(cl, QuotasOf(cl, AcrqLock), pod) == pod.scopes + QuotasOf(cl, ArqLock);
  }

  /** It never admits a pod that its own quotas would refuse. */
  lemma OwnQuotasAreChecked(cl: Cluster, quotas: seq<Admission.Quota>, pod: Pod)
    requires Admission.CheckRequest(cl.tracked, quotas, OwnRequest(pod)) == None
    ensures Admission.CheckRequest(cl.tracked, quotas, GateRequest(cl, pod)) == None
  {
    var own, asked := OwnRequest(pod), GateRequest(cl, pod);
    if Admission.NonNegative(own.usage) {
      var i: nat :| i < |quotas| && Admission.Concerns(cl.tracked, quotas[i], i, own)
        && (!Admission.HasUsageStats(cl.tracked, quotas[i])
            || (RemoveZeros(own.usage) != map[] && !Admission.Fits(quotas[i], own)));
      assert Admission.Concerns(cl.tracked, quotas[i], i, asked);
      assert Admission.Limited(quotas[i], own) == Admission.Limited(quotas[i], asked);
    }
  }

  // ---------------------------------------------------------------- batches

  /** A gated pod of the listing that the batch leaves out. */
  predicate Refused(cl: Cluster, snapshot: seq<ResourceList>, pods: Pods, listing: seq<string>, name: string)
    requires |snapshot| == |cl.quotas|
    requires forall n | n in listing :: n in pods
  {
    && name in listing && Releasable(pods[name])
    && name !in Admission.Names(GateBatch(cl, snapshot, pods, listing).accepted)
  }

  lemma {:induction false} GatedAreOffered(cl: Cluster, pods: Pods, listing: seq<string>, name: string)
    requires (forall n | n in listing :: n in pods) && name in listing && Releasable(pods[name])
    ensures Admission.Candidate(name, GateRequest(cl, pods[name])) in Offered(cl, QuotasOf(cl, AcrqLock), pods, listing)
  {
    if listing[0] != name {
      GatedAreOffered(cl, pods, listing[1..], name);
    }
  }

  /** A refused pod fits what the batch leaves of the quotas it counts in only if an ARQ it
      does not count in is short by then. */
  lemma RefusedPodsThatFit(cl: Cluster, snapshot: seq<ResourceList>, pods: Pods, listing: seq<string>, name: string)
    requires |snapshot| == |cl.quotas| && (forall n | n in listing :: n in pods)
    requires Refused(cl, snapshot, pods, listing, name)
    ensures var left := GateBatch(cl, snapshot, pods, listing).quotas;
            Admission.CheckRequest(cl.tracked, left, OwnRequest(pods[name])).Some? ==>
              ForeignQuotaIsShort(cl, left, pods[name])
  {
    var batch := GateBatch(cl, snapshot, pods, listing);
    var candidate := Admission.Candidate(name, GateRequest(cl, pods[name]));
    Admission.BatchLaw(cl.tracked, GateQuotas(cl, snapshot), Offered(cl, QuotasOf(cl, AcrqLock), pods, listing));
    GatedAreOffered(cl, pods, listing, name);
    forall k | 0 <= k < |batch.accepted|
      ensures batch.accepted[k] != candidate
    {
      assert Admission.Names(batch.accepted)[k] in Admission.Names(batch.accepted);
    }
    if Admission.CheckRequest(cl.tracked, batch.quotas, OwnRequest(pods[name])).Some? {
      ForeignQuotasRefuse(cl, batch.quotas, pods[name]);
    }
  }

  /** So where every listed pod satisfies the scopes of every ARQ, no refused pod fits the
      quotas it counts in. */
  lemma TightWithoutScopes(cl: Cluster, snapshot: seq<ResourceList>, pods: Pods, listing: seq<string>, name: string)
    requires |snapshot| == |cl.quotas| && (forall n | n in listing :: n in pods)
    requires Refused(cl, snapshot, pods, listing, name) && QuotasOf(cl, ArqLock) <= pods[name].scopes
    ensures Admission.CheckRequest(cl.tracked, GateBatch(cl, snapshot, pods, listing).quotas,
                                   OwnRequest(pods[name])) == None
  {
    RefusedPodsThatFit(cl, snapshot, pods, listing, name);
  }

  // ---------------------------------------------------------------- a pod refused for nothing

  /** One ARQ that allows no pods of its scope. */
  const NONE_OF_A_SCOPE := Cluster([QuotaSpec(map["pods" := 0], ArqLock)], {"pods"}, false)

  /** A pod outside the scope. */
  const OUTSIDER := Pod(map["pods" := 1], {}, [AAQ_GATE], false)

  /** It counts in no quota at all, and is refused. */
  lemma OutsiderIsRefused()
    ensures var snapshot := [map["pods" := 0]];
            && Refused(NONE_OF_A_SCOPE, snapshot, map["a" := OUTSIDER], ["a"], "a")
            && Admission.CheckRequest({"pods"}, GateQuotas(NONE_OF_A_SCOPE, snapshot), OwnRequest(OUTSIDER)).Some?
  {
    var snapshot := [map["pods" := 0]];
    var quotas := GateQuotas(NONE_OF_A_SCOPE, snapshot);
    var usage := Effective(OUTSIDER);
    assert Admission.Accepts({"pods"}, quotas, OwnRequest(OUTSIDER));
    assert 0 in QuotasOf(NONE_OF_A_SCOPE, ArqLock) && quotas[0] == Admission.Quota(map["pods" := 0], map["pods" := 0]);
    assert usage == map["pods" := 1] && "pods" in quotas[0].hard.Keys * {"pods"};
    assert "pods" in Admission.Limited(quotas[0], Admission.Request(usage, {}));
    assert !Admission.Fits(quotas[0], Admission.Request(usage, {}));
    ForeignQuotasRefuse(NONE_OF_A_SCOPE, quotas, OUTSIDER);
    var pods := map["a" := OUTSIDER];
    assert Offered(NONE_OF_A_SCOPE, QuotasOf(NONE_OF_A_SCOPE, AcrqLock), pods, ["a"][1..]) == [];
    var offered := Offered(NONE_OF_A_SCOPE, QuotasOf(NONE_OF_A_SCOPE, AcrqLock), pods, ["a"]);
    assert offered == [Admission.Candidate("a", GateRequest(NONE_OF_A_SCOPE, OUTSIDER))];
    assert Admission.Greedy({"pods"}, quotas, offered[..0]) == Admission.Batch([], quotas);
    assert Admission.Greedy({"pods"}, quotas, offered).accepted == [];
  }
}
