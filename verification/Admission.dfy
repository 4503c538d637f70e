/** The quota check of one pod and the greedy batch the gate controller builds with it. */
module Admission {
  import opened Resources

  /** A quota as the gate controller sees it: status limits and recorded usage. */
  datatype Quota = Quota(hard: ResourceList, used: ResourceList)

  /** What a pod asks for once its gate is dropped: its usage and the indexes of the
      quotas whose scopes, as far as the check is given them, it satisfies. */
  datatype Request = Request(usage: ResourceList, scopes: set<nat>)

  datatype Candidate = Candidate(name: string, request: Request)

  /** A quota concerns a request when the scopes match and it limits a tracked resource. */
  predicate Concerns(tracked: set<string>, quota: Quota, i: nat, request: Request) {
    i in request.scopes && quota.hard.Keys * tracked != {}
  }

  predicate HasUsageStats(tracked: set<string>, quota: Quota) {
    quota.hard.Keys * tracked <= quota.used.Keys
  }

  predicate NonNegative(a: ResourceList) {
    forall r | r in a :: a[r] >= 0
  }

  function Limited(quota: Quota, request: Request): ResourceList {
    Mask(RemoveZeros(request.usage), quota.hard.Keys)
  }

  predicate Fits(quota: Quota, request: Request) {
    forall r | r in Limited(quota, request) :: Get(quota.used, r) + Get(request.usage, r) <= Get(quota.hard, r)
  }

  predicate Accepts(tracked: set<string>, quotas: seq<Quota>, request: Request) {
    && NonNegative(request.usage)
    && (forall i: nat | i < |quotas| :: Concerns(tracked, quotas[i], i, request) ==> HasUsageStats(tracked, quotas[i]))
    && (RemoveZeros(request.usage) != map[] ==>
          forall i: nat | i < |quotas| :: Concerns(tracked, quotas[i], i, request) ==> Fits(quotas[i], request))
  }

  function Debit(tracked: set<string>, quota: Quota, i: nat, request: Request): Quota {
    if Concerns(tracked, quota, i, request)
    then quota.(used := Add(quota.used, Limited(quota, request)))
    else quota
  }

  /** The library's quota check: either every concerned quota has room and is debited, or
      the request is refused and no quota changes. */
  function CheckRequest(tracked: set<string>, quotas: seq<Quota>, request: Request): Option<seq<Quota>> {
    if !Accepts(tracked, quotas, request) then None
    else if RemoveZeros(request.usage) == map[] then Some(quotas)
    else Some(seq(|quotas|, i requires 0 <= i < |quotas| => Debit(tracked, quotas[i], i, request)))
  }

  /** What an accepted request costs quota i in resource r. */
  function Charge(tracked: set<string>, quota: Quota, i: nat, request: Request, r: string): int {
    if Concerns(tracked, quota, i, request) && r in quota.hard then Get(request.usage, r) else 0
  }

  function ChargeAll(tracked: set<string>, quota: Quota, i: nat, accepted: seq<Candidate>, r: string): int {
    if accepted == [] then 0
    else
      var last := |accepted| - 1;
      ChargeAll(tracked, quota, i, accepted[..last], r) + Charge(tracked, quota, i, accepted[last].request, r)
  }

  /** How quotas evolve as requests are accepted: limits stay, recorded usage only grows,
      and a quota whose usage is not fully known is never debited. */
  ghost predicate Grown(tracked: set<string>, before: seq<Quota>, after: seq<Quota>) {
    && |before| == |after|
    && forall i | 0 <= i < |before| ::
         && after[i].hard == before[i].hard
         && before[i].used.Keys <= after[i].used.Keys
         && (forall r :: Get(before[i].used, r) <= Get(after[i].used, r))
         && (!HasUsageStats(tracked, before[i]) ==> after[i] == before[i])
  }

  /** The contract of one check: each concerned quota gains exactly the request on the
      resources it limits, stays within its limit on every resource the request really
      consumes, and nothing else changes; a refusal means some concerned quota is unknown
      or short, or a quantity is negative. */
  lemma CheckRequestContract(tracked: set<string>, quotas: seq<Quota>, request: Request)
    ensures match CheckRequest(tracked, quotas, request)
            case Some(after) =>
              && Grown(tracked, quotas, after)
              && (forall i: nat, r | i < |quotas| ::
                    Get(after[i].used, r) == Get(quotas[i].used, r) + Charge(tracked, quotas[i], i, request, r))
              && (forall i: nat, r | i < |quotas| && Charge(tracked, quotas[i], i, request, r) != 0 ::
                    Get(after[i].used, r) <= Get(quotas[i].hard, r))
            case None =>
              || (exists r :: r in request.usage && request.usage[r] < 0)
              || (exists i: nat :: i < |quotas| && Concerns(tracked, quotas[i], i, request)
                    && (!HasUsageStats(tracked, quotas[i]) || !Fits(quotas[i], request)))
  {
    match CheckRequest(tracked, quotas, request)
    case None =>
    case Some(after) =>
      forall i: nat, r | i < |quotas|
        ensures Get(after[i].used, r) == Get(quotas[i].used, r) + Charge(tracked, quotas[i], i, request, r)
        ensures Charge(tracked, quotas[i], i, request, r) >= 0
        ensures Charge(tracked, quotas[i], i, request, r) != 0 ==> Get(after[i].used, r) <= Get(quotas[i].hard, r)
      {
        assert Get(RemoveZeros(request.usage), r) == Get(request.usage, r);
        if RemoveZeros(request.usage) == map[] {
          assert Get(request.usage, r) == 0;
        } else if Concerns(tracked, quotas[i], i, request) {
          assert Get(Limited(quotas[i], request), r) == if r in quotas[i].hard then Get(request.usage, r) else 0;
          if Charge(tracked, quotas[i], i, request, r) != 0 {
            assert r in Limited(quotas[i], request);
          }
        }
      }
  }

  lemma GrownTransitive(tracked: set<string>, a: seq<Quota>, b: seq<Quota>, c: seq<Quota>)
    requires Grown(tracked, a, b) && Grown(tracked, b, c)
    ensures Grown(tracked, a, c)
  {
    forall i, r | 0 <= i < |a|
      ensures Get(a[i].used, r) <= Get(c[i].used, r)
    {
      assert Get(a[i].used, r) <= Get(b[i].used, r) <= Get(c[i].used, r);
    }
  }

  /** A refused request stays refused as other requests are accepted. */
  lemma RefusalPersists(tracked: set<string>, before: seq<Quota>, after: seq<Quota>, request: Request)
    requires Grown(tracked, before, after)
    requires CheckRequest(tracked, before, request) == None
    ensures CheckRequest(tracked, after, request) == None
  {
    if Accepts(tracked, after, request) {
      forall i: nat | i < |before| && Concerns(tracked, before[i], i, request)
        ensures HasUsageStats(tracked, before[i])
        ensures RemoveZeros(request.usage) != map[] ==> Fits(before[i], request)
      {
        assert Concerns(tracked, after[i], i, request);
        if RemoveZeros(request.usage) != map[] {
          assert Fits(after[i], request);
          forall r | r in Limited(before[i], request)
            ensures Get(before[i].used, r) + Get(request.usage, r) <= Get(before[i].hard, r)
          {
            assert r in Limited(after[i], request);
            assert Get(before[i].used, r) <= Get(after[i].used, r);
          }
        }
      }
      assert false;
    }
  }

  /** A quota that would turn the usage down if it concerned the request. */
  predicate Short(tracked: set<string>, quota: Quota, usage: ResourceList) {
    quota.hard.Keys * tracked != {} && (!HasUsageStats(tracked, quota) || !Fits(quota, Request(usage, {})))
  }

  /** Letting more quotas concern an acceptable request gets it refused exactly when one of
      the new ones is short. */
  lemma MoreScopes(tracked: set<string>, quotas: seq<Quota>, usage: ResourceList, scopes: set<nat>, more: set<nat>)
    requires CheckRequest(tracked, quotas, Request(usage, scopes)).Some?
    ensures CheckRequest(tracked, quotas, Request(usage, scopes + more)) == None <==>
              exists i :: i in more && i !in scopes && i < |quotas| && Short(tracked, quotas[i], usage)
  {
    var request := Request(usage, scopes + more);
    forall i | i in more && i !in scopes && i < |quotas| && Short(tracked, quotas[i], usage)
      ensures !Accepts(tracked, quotas, request)
    {
      assert Concerns(tracked, quotas[i], i, request);
      assert Limited(quotas[i], request) == Limited(quotas[i], Request(usage, {}));
    }
    if !Accepts(tracked, quotas, request) {
      var i: nat :| i < |quotas| && Concerns(tracked, quotas[i], i, request)
        && (!HasUsageStats(tracked, quotas[i]) || (RemoveZeros(usage) != map[] && !Fits(quotas[i], request)));
      assert i in scopes ==> Concerns(tracked, quotas[i], i, Request(usage, scopes));
      assert Limited(quotas[i], request) == Limited(quotas[i], Request(usage, {}))
          == Limited(quotas[i], Request(usage, scopes));
    }
  }

  // ---------------------------------------------------------------- the greedy batch

  datatype Batch = Batch(accepted: seq<Candidate>, quotas: seq<Quota>)

  /** The batch after offering the candidates in order, each against the quotas as the
      earlier acceptances left them. */
  function Greedy(tracked: set<string>, quotas: seq<Quota>, offered: seq<Candidate>): Batch {
    if offered == [] then Batch([], quotas)
    else
      var last := offered[|offered| - 1];
      var before := Greedy(tracked, quotas, offered[..|offered| - 1]);
      match CheckRequest(tracked, before.quotas, last.request)
      case None => before
      case Some(after) => Batch(before.accepted + [last], after)
  }

  /** The loop of the gate controller over the gated pods it listed. */
  method SelectPods(tracked: set<string>, quotas: seq<Quota>, offered: seq<Candidate>)
    returns (queue: seq<string>, accepted: seq<Candidate>, after: seq<Quota>)
    ensures Batch(accepted, after) == Greedy(tracked, quotas, offered)
    ensures queue == Names(accepted)
  {
    queue, accepted, after := [], [], quotas;
    for k := 0 to |offered|
      invariant Batch(accepted, after) == Greedy(tracked, quotas, offered[..k])
      invariant queue == Names(accepted)
    {
      assert offered[..k + 1][..k] == offered[..k];
      match CheckRequest(tracked, after, offered[k].request) {
        case None =>
        case Some(debited) =>
          after := debited;
          accepted := accepted + [offered[k]];
          queue := queue + [offered[k].name];
      }
    }
    assert offered[..|offered|] == offered;
  }

  function Names(accepted: seq<Candidate>): (names: seq<string>)
    ensures |names| == |accepted|
    ensures forall k | 0 <= k < |names| :: names[k] == accepted[k].name
  {
    seq(|accepted|, k requires 0 <= k < |accepted| => accepted[k].name)
  }

  /** After the batch every quota's usage is its starting value plus the accepted charges,
      it is within the limit on every resource an accepted pod consumes, only offered pods
      are accepted, and no refused pod fits what is left. */
  lemma {:induction false} BatchLaw(tracked: set<string>, quotas: seq<Quota>, offered: seq<Candidate>)
    ensures var b := Greedy(tracked, quotas, offered);
            && Grown(tracked, quotas, b.quotas)
            && (forall c | c in b.accepted :: c in offered && NonNegative(c.request.usage))
            && (forall i: nat, r | i < |quotas| ::
                  Get(b.quotas[i].used, r) == Get(quotas[i].used, r) + ChargeAll(tracked, quotas[i], i, b.accepted, r))
            && (forall i: nat, r | i < |quotas| && ChargeAll(tracked, quotas[i], i, b.accepted, r) != 0 ::
                  Get(b.quotas[i].used, r) <= Get(quotas[i].hard, r))
            && (forall c | c in offered && c !in b.accepted ::
                  CheckRequest(tracked, b.quotas, c.request) == None)
  {
    if offered != [] {
      var n := |offered| - 1;
      var last := offered[n];
      var before := Greedy(tracked, quotas, offered[..n]);
      BatchLaw(tracked, quotas, offered[..n]);
      CheckRequestContract(tracked, before.quotas, last.request);
      assert offered == offered[..n] + [last];
      match CheckRequest(tracked, before.quotas, last.request)
      case None =>
      case Some(after) =>
        GrownTransitive(tracked, quotas, before.quotas, after);
        BatchStepCharges(tracked, quotas, before, last, after);
        forall c | c in offered && c !in before.accepted + [last]
          ensures CheckRequest(tracked, after, c.request) == None
        {
          assert c in offered[..n] && c !in before.accepted;
          RefusalPersists(tracked, before.quotas, after, c.request);
        }
    }
  }

  lemma BatchStepCharges(tracked: set<string>, quotas: seq<Quota>, before: Batch, last: Candidate, after: seq<Quota>)
    requires CheckRequest(tracked, before.quotas, last.request) == Some(after)
    requires Grown(tracked, quotas, before.quotas)
    requires forall c | c in before.accepted :: NonNegative(c.request.usage)
    requires forall i: nat, r | i < |quotas| ::
               Get(before.quotas[i].used, r)
                 == Get(quotas[i].used, r) + ChargeAll(tracked, quotas[i], i, before.accepted, r)
    requires forall i: nat, r | i < |quotas| && ChargeAll(tracked, quotas[i], i, before.accepted, r) != 0 ::
               Get(before.quotas[i].used, r) <= Get(quotas[i].hard, r)
    ensures |after| == |quotas|
    ensures forall i: nat, r | i < |quotas| ::
              Get(after[i].used, r) == Get(quotas[i].used, r)
                + ChargeAll(tracked, quotas[i], i, before.accepted + [last], r)
    ensures forall i: nat, r | i < |quotas| && ChargeAll(tracked, quotas[i], i, before.accepted + [last], r) != 0 ::
              Get(after[i].used, r) <= Get(quotas[i].hard, r)
  {
    CheckRequestContract(tracked, before.quotas, last.request);
    assert (before.accepted + [last])[..|before.accepted|] == before.accepted;
    forall i: nat, r | i < |quotas|
      ensures Get(after[i].used, r)
                == Get(quotas[i].used, r) + ChargeAll(tracked, quotas[i], i, before.accepted + [last], r)
      ensures ChargeAll(tracked, quotas[i], i, before.accepted + [last], r) != 0 ==>
                Get(after[i].used, r) <= Get(quotas[i].hard, r)
    {
      assert Charge(tracked, before.quotas[i], i, last.request, r) == Charge(tracked, quotas[i], i, last.request, r);
      assert ChargeAll(tracked, quotas[i], i, before.accepted + [last], r)
          == ChargeAll(tracked, quotas[i], i, before.accepted, r) + Charge(tracked, quotas[i], i, last.request, r);
    }
  }
}
