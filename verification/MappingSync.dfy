/** The two scans as the code runs them on the mapper, with their retry loops. Each is a run
    of the mapping controller's machine from where the scan has its listing.

    While a retry loop spins nothing else moves here, so the scans are given caches whose
    events have all been delivered; the objects they start from may still be outdated. */
module MappingSync {
  import opened Resources
  import opened ClusterQuotaMapper
  import opened MappingController
  import opened MappingSettles

  // ---------------------------------------------------------------- where a scan stands

  /** The scan of `key` holds `own` and still has `todo` to visit, on this mapping. */
  predicate Stands(s: State, m: Mapping, key: Key, own: Stamp, todo: map<Key, Stamp>) {
    s.mapping == m && key in s.scans && s.scans[key] == Scanning(own, todo)
  }

  /** The state when it has moved on. */
  function MovedOn(s: State, m: Mapping, key: Key, own: Stamp, todo: map<Key, Stamp>): State {
    s.(mapping := m, scans := s.scans[key := Scanning(own, todo)])
  }

  /** The state when it is over. */
  function Over(s: State, m: Mapping, key: Key): State {
    s.(mapping := m, scans := s.scans - {key})
  }

  /** A scan that is over once it has moved on is over from the start. */
  lemma OverLater(s: State, mid: State, m: Mapping, m': Mapping, key: Key, own: Stamp, todo: map<Key, Stamp>)
    requires Works(s, mid) && mid == MovedOn(s, m, key, own, todo) && Works(mid, Over(mid, m', key))
    ensures Works(s, Over(s, m', key))
  {
    assert Over(mid, m', key) == Over(s, m', key);
    WorksTwice(s, mid, Over(s, m', key));
  }

  /** The scan visits one object, if need be a second time with the stored copy. */
  lemma VisitsOne(s: State, key: Key, own: Stamp, other: Key, held: Stamp, todo: map<Key, Stamp>)
    requires Stands(s, s.mapping, key, own, todo) && other in todo && todo[other] == held
    requires Fitting(key, own) && Fitting(other, held) && Opposite(key, other)
    requires Required(s.mapping, key) == Some(own)
    requires other in s.store ==> Required(s.mapping, other) == Some(s.store[other]) && Fitting(other, s.store[other])
    ensures Required(s.mapping, other) == Some(held) ==>
              Works(s, MovedOn(s, Write(s.mapping, key, own, other, held), key, own, todo - {other}))
    ensures Required(s.mapping, other) != Some(held) && other !in s.store ==>
              Works(s, MovedOn(s, s.mapping, key, own, todo - {other}))
    ensures Required(s.mapping, other) != Some(held) && other in s.store ==>
              Works(s, MovedOn(s, Write(s.mapping, key, own, other, s.store[other]), key, own, todo - {other}))
  {
    WorksHere(s);
    WorksStep(s, s, Visit(key, other));
    if Required(s.mapping, other) != Some(held) && other in s.store {
      var mid := Do(s, Visit(key, other));
      WorksStep(s, mid, Visit(key, other));
      assert todo[other := s.store[other]] - {other} == todo - {other};
      assert Do(mid, Visit(key, other))
          == MovedOn(s, Write(s.mapping, key, own, other, s.store[other]), key, own, todo - {other});
    }
  }

  /** It stamps its key and ends. */
  lemma EndsStamped(s: State, key: Key, own: Stamp)
    requires Stands(s, s.mapping, key, own, map[]) && Fitting(key, own)
    ensures Works(s, Over(s, Complete(s.mapping, key, own), key))
  {
    WorksHere(s);
    WorksStep(s, s, Finish(key));
  }

  /** It ends on a visit that finds its own object outdated; a quota is stamped even so. */
  lemma EndsOutdated(s: State, key: Key, own: Stamp, other: Key, todo: map<Key, Stamp>)
    requires Stands(s, s.mapping, key, own, todo) && other in todo
    requires Fitting(key, own) && Fitting(other, todo[other]) && Opposite(key, other)
    requires Required(s.mapping, key) != Some(own)
    ensures Works(s, Over(s, if key.Quota? then Complete(s.mapping, key, own) else s.mapping, key))
  {
    WorksHere(s);
    WorksStep(s, s, Visit(key, other));
  }

  /** Everything but the two indexes. */
  predicate SameStamps(m: Mapping, m': Mapping) {
    m' == m.(quotaToNamespaces := m'.quotaToNamespaces, namespaceToQuotas := m'.namespaceToQuotas)
  }

  function CachedIn<T>(cache: map<string, T>, name: string): Option<T> {
    if name in cache then Some(cache[name]) else None
  }

  predicate Distinct<T>(listing: seq<(string, T)>) {
    forall j, k | 0 <= j < k < |listing| :: listing[j].0 != listing[k].0
  }

  // ---------------------------------------------------------------- the scan of a quota

  /** What one pair should end up as: decided by the cached object when there is one, by the
      object the scan holds when only that is still required, otherwise left alone. */
  function Settles(m: Mapping, quota: string, selector: Selector, namespace: string, held: Fields,
                   cached: Option<Fields>): bool {
    if NamespaceIsCurrent(m, namespace, held) then Matches(selector, held)
    else if cached.Some? then Matches(selector, cached.value)
    else Linked(m, quota, namespace)
  }

  /** The mapping after one pair: written with the copy that is current, if any. */
  function AfterNamespace(m: Mapping, quota: string, selector: Selector, namespace: string, held: Fields,
                          cached: Option<Fields>): Mapping {
    var fields := if NamespaceIsCurrent(m, namespace, held) || cached.None? then held else cached.value;
    WithPair(m, quota, selector, namespace, fields, !Matches(selector, fields))
  }

  function AfterNamespaces(m: Mapping, quota: string, selector: Selector,
                           listing: seq<(string, Fields)>, cache: map<string, Fields>): Mapping
    decreases listing
  {
    if listing == [] then m
    else
      var first := AfterNamespace(m, quota, selector, listing[0].0, listing[0].1, CachedIn(cache, listing[0].0));
      AfterNamespaces(first, quota, selector, listing[1..], cache)
  }

  predicate NamespacesCurrent(m: Mapping, cache: map<string, Fields>) {
    forall n | n in cache :: NamespaceIsCurrent(m, n, cache[n])
  }

  lemma NamespaceEffect(m: Mapping, quota: string, selector: Selector, namespace: string, held: Fields,
                        cached: Option<Fields>)
    requires Consistent(m) && (cached.Some? ==> NamespaceIsCurrent(m, namespace, cached.value))
    ensures var after := AfterNamespace(m, quota, selector, namespace, held, cached);
            && Consistent(after) && SameStamps(m, after)
            && forall q, n :: Linked(after, q, n) <==>
                 if QuotaIsCurrent(m, quota, selector) && q == quota && n == namespace
                 then Settles(m, quota, selector, namespace, held, cached)
                 else Linked(m, q, n)
  {
    var fields := if NamespaceIsCurrent(m, namespace, held) || cached.None? then held else cached.value;
    WithPairEffect(m, quota, selector, namespace, fields, !Matches(selector, fields));
  }

  /** A scan with a current quota settles exactly the listed pairs; with an outdated one it
      changes nothing. */
  lemma {:induction false} NamespacesEffect(m: Mapping, quota: string, selector: Selector,
                                            listing: seq<(string, Fields)>, cache: map<string, Fields>)
    requires Consistent(m) && NamespacesCurrent(m, cache) && Distinct(listing)
    ensures var after := AfterNamespaces(m, quota, selector, listing, cache);
            && Consistent(after) && SameStamps(m, after)
            && (!QuotaIsCurrent(m, quota, selector) ==> after == m)
            && (QuotaIsCurrent(m, quota, selector) ==>
                  && (forall k | 0 <= k < |listing| ::
                        Linked(after, quota, listing[k].0) <==>
                          Settles(m, quota, selector, listing[k].0, listing[k].1, CachedIn(cache, listing[k].0)))
                  && (forall q, n | q != quota || (forall k | 0 <= k < |listing| :: listing[k].0 != n) ::
                        Linked(after, q, n) <==> Linked(m, q, n)))
    decreases listing
  {
    if listing != [] {
      var name, held := listing[0].0, listing[0].1;
      NamespaceEffect(m, quota, selector, name, held, CachedIn(cache, name));
      var first := AfterNamespace(m, quota, selector, name, held, CachedIn(cache, name));
      NamespacesEffect(first, quota, selector, listing[1..], cache);
      var after := AfterNamespaces(m, quota, selector, listing, cache);
      if QuotaIsCurrent(m, quota, selector) {
        assert forall k | 1 <= k < |listing| :: listing[k] == listing[1..][k - 1];
        forall k | 0 <= k < |listing|
          ensures Linked(after, quota, listing[k].0) <==>
                    Settles(m, quota, selector, listing[k].0, listing[k].1, CachedIn(cache, listing[k].0))
        {
          if k > 0 {
            assert listing[1..][k - 1].0 != name;
          }
        }
      }
    }
  }

  /** Tries one pair, fetching a newer namespace while the one at hand is outdated. */
  method VisitNamespace(mapper: Mapper, quota: string, selector: Selector, namespace: string, held: Fields,
                        cached: Option<Fields>)
    returns (quotaMatches: bool)
    requires mapper.Valid()
    requires cached.Some? ==> NamespaceIsCurrent(mapper.Value(), namespace, cached.value)
    modifies mapper
    ensures mapper.Valid() && quotaMatches == QuotaIsCurrent(old(mapper.Value()), quota, selector)
    ensures mapper.Value() == AfterNamespace(old(mapper.Value()), quota, selector, namespace, held, cached)
  {
    ghost var before := mapper.Value();
    var obj := held;
    var fetched := false;
    quotaMatches := true;
    while true
      invariant mapper.Valid() && mapper.Value() == before
      invariant fetched ==> cached.Some? && obj == cached.value && !NamespaceIsCurrent(before, namespace, held)
      invariant !fetched ==> obj == held
      invariant fetched ==> QuotaIsCurrent(before, quota, selector)
      decreases !fetched
    {
      var matches := Matches(selector, obj);
      var ok, quotaOk, namespaceOk := mapper.SetMapping(quota, selector, namespace, obj, !matches);
      if ok {
        return true;
      }
      if !quotaOk {
        return false;
      }
      if cached.None? {
        return true;
      }
      obj, fetched := cached.value, true;
    }
  }

  /** What a listing of namespaces leaves to visit. */
  function NamespacesToVisit(listing: seq<(string, Fields)>): map<Key, Stamp> {
    if listing == [] then map[]
    else NamespacesToVisit(listing[1..])[Namespace(listing[0].0) := OfNamespace(listing[0].1)]
  }

  lemma {:induction false} NextNamespace(listing: seq<(string, Fields)>)
    requires Distinct(listing)
    ensures forall key | key in NamespacesToVisit(listing) ::
              exists k :: 0 <= k < |listing| && key == Namespace(listing[k].0)
    ensures listing != [] ==>
              NamespacesToVisit(listing) - {Namespace(listing[0].0)} == NamespacesToVisit(listing[1..])
  {
    if listing != [] {
      NextNamespace(listing[1..]);
      forall key | key in NamespacesToVisit(listing)
        ensures exists k :: 0 <= k < |listing| && key == Namespace(listing[k].0)
      {
        if key in NamespacesToVisit(listing[1..]) {
          var k :| 0 <= k < |listing[1..]| && key == Namespace(listing[1..][k].0);
          assert listing[k + 1].0 == listing[1..][k].0;
        }
      }
      assert Namespace(listing[0].0) !in NamespacesToVisit(listing[1..]);
    }
  }

  /** The lister of namespaces has exactly the objects of the cache. */
  ghost predicate ListsNamespaces(s: State, cache: map<string, Fields>) {
    && (forall n :: Namespace(n) in s.store <==> n in cache)
    && (forall n | n in cache :: s.store[Namespace(n)] == OfNamespace(cache[n]))
  }

  /** The machine in which the scan of the quota stands at the listing. */
  ghost predicate ScansQuota(s: State, m: Mapping, quota: string, selector: Selector, listing: seq<(string, Fields)>,
                             cache: map<string, Fields>) {
    Stands(s, m, Quota(quota), OfQuota(selector), NamespacesToVisit(listing)) && ListsNamespaces(s, cache)
  }

  function QuotaScanned(m: Mapping, quota: string, selector: Selector,
                        listing: seq<(string, Fields)>, cache: map<string, Fields>): Mapping {
    Complete(AfterNamespaces(m, quota, selector, listing, cache), Quota(quota), OfQuota(selector))
  }

  /** One turn of the loop is a run of one or two visits. */
  lemma FirstNamespaceRuns(s: State, m: Mapping, quota: string, selector: Selector, listing: seq<(string, Fields)>,
                           cache: map<string, Fields>)
    requires ScansQuota(s, m, quota, selector, listing, cache) && listing != []
    requires Consistent(m) && NamespacesCurrent(m, cache) && Distinct(listing) && QuotaIsCurrent(m, quota, selector)
    ensures var first := AfterNamespace(m, quota, selector, listing[0].0, listing[0].1, CachedIn(cache, listing[0].0));
            var mid := MovedOn(s, first, Quota(quota), OfQuota(selector), NamespacesToVisit(listing[1..]));
            && Works(s, mid) && ScansQuota(mid, first, quota, selector, listing[1..], cache)
            && Consistent(first) && NamespacesCurrent(first, cache)
  {
    var name, held := listing[0].0, listing[0].1;
    VisitsOne(s, Quota(quota), OfQuota(selector), Namespace(name), OfNamespace(held), NamespacesToVisit(listing));
    NextNamespace(listing);
    NamespaceEffect(m, quota, selector, name, held, CachedIn(cache, name));
  }

  /** What the loop does to the mapping is a run of the machine that ends the scan. */
  lemma {:induction false} QuotaScanRuns(s: State, m: Mapping, quota: string, selector: Selector,
                                         listing: seq<(string, Fields)>, cache: map<string, Fields>)
    requires ScansQuota(s, m, quota, selector, listing, cache)
    requires Consistent(m) && NamespacesCurrent(m, cache) && Distinct(listing)
    ensures Works(s, Over(s, QuotaScanned(m, quota, selector, listing, cache), Quota(quota)))
    decreases listing
  {
    var key, own, todo := Quota(quota), OfQuota(selector), NamespacesToVisit(listing);
    if listing == [] {
      EndsStamped(s, key, own);
    } else if !QuotaIsCurrent(m, quota, selector) {
      NamespacesEffect(m, quota, selector, listing, cache);
      EndsOutdated(s, key, own, Namespace(listing[0].0), todo);
    } else {
      FirstNamespaceRuns(s, m, quota, selector, listing, cache);
      var first := AfterNamespace(m, quota, selector, listing[0].0, listing[0].1, CachedIn(cache, listing[0].0));
      var mid := MovedOn(s, first, key, own, NamespacesToVisit(listing[1..]));
      QuotaScanRuns(mid, first, quota, selector, listing[1..], cache);
      OverLater(s, mid, first, QuotaScanned(first, quota, selector, listing[1..], cache), key, own,
                NamespacesToVisit(listing[1..]));
    }
  }

  lemma EveryQuotaScanRuns(m: Mapping, quota: string, selector: Selector,
                           listing: seq<(string, Fields)>, cache: map<string, Fields>)
    requires Consistent(m) && NamespacesCurrent(m, cache) && Distinct(listing)
    ensures forall s | ScansQuota(s, m, quota, selector, listing, cache) ::
              Works(s, Over(s, QuotaScanned(m, quota, selector, listing, cache), Quota(quota)))
  {
    forall s | ScansQuota(s, m, quota, selector, listing, cache)
      ensures Works(s, Over(s, QuotaScanned(m, quota, selector, listing, cache), Quota(quota)))
    {
      QuotaScanRuns(s, m, quota, selector, listing, cache);
    }
  }

  /** Goes through the listing until the quota turns out to be outdated. */
  method VisitNamespaces(mapper: Mapper, quota: string, selector: Selector,
                         listing: seq<(string, Fields)>, cache: map<string, Fields>)
    requires mapper.Valid() && NamespacesCurrent(mapper.Value(), cache) && Distinct(listing)
    modifies mapper
    ensures mapper.Valid() && mapper.Value() == AfterNamespaces(old(mapper.Value()), quota, selector, listing, cache)
  {
    ghost var before := mapper.Value();
    var k := 0;
    while k < |listing|
      invariant k <= |listing| && mapper.Valid() && SameStamps(before, mapper.Value())
      invariant AfterNamespaces(before, quota, selector, listing, cache)
             == AfterNamespaces(mapper.Value(), quota, selector, listing[k..], cache)
    {
      var name, held := listing[k].0, listing[k].1;
      assert listing[k..][1..] == listing[k + 1..];
      NamespaceEffect(mapper.Value(), quota, selector, name, held, CachedIn(cache, name));
      NamespacesEffect(mapper.Value(), quota, selector, listing[k..], cache);
      var quotaMatches := VisitNamespace(mapper, quota, selector, name, held, CachedIn(cache, name));
      if !quotaMatches {
        break;
      }
      k := k + 1;
    }
  }

  /** The scan of one quota over a listing of namespaces. It stamps the quota as complete even
      when it gives up, because the quota it holds is outdated. */
  method SyncQuota(mapper: Mapper, quota: string, selector: Selector,
                   listing: seq<(string, Fields)>, cache: map<string, Fields>)
    requires mapper.Valid() && NamespacesCurrent(mapper.Value(), cache) && Distinct(listing)
    modifies mapper
    ensures mapper.Valid()
    ensures forall s | ScansQuota(s, old(mapper.Value()), quota, selector, listing, cache) ::
              Works(s, Over(s, mapper.Value(), Quota(quota)))
    ensures SameStamps(old(mapper.Value()).(completedQuotas := old(mapper.completedQuotas)[quota := selector]),
                       mapper.Value())
    ensures !QuotaIsCurrent(old(mapper.Value()), quota, selector) ==>
              forall q, n :: Linked(mapper.Value(), q, n) <==> Linked(old(mapper.Value()), q, n)
    ensures QuotaIsCurrent(old(mapper.Value()), quota, selector) ==>
              && (forall k | 0 <= k < |listing| ::
                    Linked(mapper.Value(), quota, listing[k].0) <==>
                      Settles(old(mapper.Value()), quota, selector, listing[k].0, listing[k].1,
                              CachedIn(cache, listing[k].0)))
              && (forall q, n | q != quota || (forall k | 0 <= k < |listing| :: listing[k].0 != n) ::
                    Linked(mapper.Value(), q, n) <==> Linked(old(mapper.Value()), q, n))
  {
    ghost var before := mapper.Value();
    VisitNamespaces(mapper, quota, selector, listing, cache);
    NamespacesEffect(before, quota, selector, listing, cache);
    mapper.CompleteQuota(quota, selector);
    EveryQuotaScanRuns(before, quota, selector, listing, cache);
  }

  // ---------------------------------------------------------------- the scan of a namespace

  function SettlesFor(m: Mapping, quota: string, held: Selector, cached: Option<Selector>, namespace: string,
                      fields: Fields): bool {
    if QuotaIsCurrent(m, quota, held) then Matches(held, fields)
    else if cached.Some? then Matches(cached.value, fields)
    else Linked(m, quota, namespace)
  }

  function AfterQuota(m: Mapping, quota: string, held: Selector, cached: Option<Selector>, namespace: string,
                      fields: Fields): Mapping {
    var selector := if QuotaIsCurrent(m, quota, held) || cached.None? then held else cached.value;
    WithPair(m, quota, selector, namespace, fields, !Matches(selector, fields))
  }

  function AfterQuotas(m: Mapping, namespace: string, fields: Fields,
                       listing: seq<(string, Selector)>, cache: map<string, Selector>): Mapping
    decreases listing
  {
    if listing == [] then m
    else
      var first := AfterQuota(m, listing[0].0, listing[0].1, CachedIn(cache, listing[0].0), namespace, fields);
      AfterQuotas(first, namespace, fields, listing[1..], cache)
  }

  predicate QuotasCurrent(m: Mapping, cache: map<string, Selector>) {
    forall q | q in cache :: QuotaIsCurrent(m, q, cache[q])
  }

  lemma QuotaEffect(m: Mapping, quota: string, held: Selector, cached: Option<Selector>, namespace: string,
                    fields: Fields)
    requires Consistent(m) && (cached.Some? ==> QuotaIsCurrent(m, quota, cached.value))
    ensures var after := AfterQuota(m, quota, held, cached, namespace, fields);
            && Consistent(after) && SameStamps(m, after)
            && forall q, n :: Linked(after, q, n) <==>
                 if NamespaceIsCurrent(m, namespace, fields) && q == quota && n == namespace
                 then SettlesFor(m, quota, held, cached, namespace, fields)
                 else Linked(m, q, n)
  {
    var selector := if QuotaIsCurrent(m, quota, held) || cached.None? then held else cached.value;
    WithPairEffect(m, quota, selector, namespace, fields, !Matches(selector, fields));
  }

  lemma {:induction false} QuotasEffect(m: Mapping, namespace: string, fields: Fields, listing: seq<(string, Selector)>,
                                        cache: map<string, Selector>)
    requires Consistent(m) && QuotasCurrent(m, cache) && Distinct(listing)
    ensures var after := AfterQuotas(m, namespace, fields, listing, cache);
            && Consistent(after) && SameStamps(m, after)
            && (!NamespaceIsCurrent(m, namespace, fields) ==> after == m)
            && (NamespaceIsCurrent(m, namespace, fields) ==>
                  && (forall k | 0 <= k < |listing| ::
                        Linked(after, listing[k].0, namespace) <==>
                          SettlesFor(m, listing[k].0, listing[k].1, CachedIn(cache, listing[k].0), namespace, fields))
                  && (forall q, n | n != namespace || (forall k | 0 <= k < |listing| :: listing[k].0 != q) ::
                        Linked(after, q, n) <==> Linked(m, q, n)))
    decreases listing
  {
    if listing != [] {
      var name, held := listing[0].0, listing[0].1;
      QuotaEffect(m, name, held, CachedIn(cache, name), namespace, fields);
      var first := AfterQuota(m, name, held, CachedIn(cache, name), namespace, fields);
      QuotasEffect(first, namespace, fields, listing[1..], cache);
      var after := AfterQuotas(m, namespace, fields, listing, cache);
      if NamespaceIsCurrent(m, namespace, fields) {
        assert forall k | 1 <= k < |listing| :: listing[k] == listing[1..][k - 1];
        forall k | 0 <= k < |listing|
          ensures Linked(after, listing[k].0, namespace) <==>
                    SettlesFor(m, listing[k].0, listing[k].1, CachedIn(cache, listing[k].0), namespace, fields)
        {
          if k > 0 {
            assert listing[1..][k - 1].0 != name;
          }
        }
      }
    }
  }

  method VisitQuota(mapper: Mapper, quota: string, held: Selector, cached: Option<Selector>, namespace: string,
                    fields: Fields)
    returns (namespaceMatches: bool)
    requires mapper.Valid()
    requires cached.Some? ==> QuotaIsCurrent(mapper.Value(), quota, cached.value)
    modifies mapper
    ensures mapper.Valid() && namespaceMatches == NamespaceIsCurrent(old(mapper.Value()), namespace, fields)
    ensures mapper.Value() == AfterQuota(old(mapper.Value()), quota, held, cached, namespace, fields)
  {
    ghost var before := mapper.Value();
    var obj := held;
    var fetched := false;
    namespaceMatches := true;
    while true
      invariant mapper.Valid() && mapper.Value() == before
      invariant fetched ==> cached.Some? && obj == cached.value && !QuotaIsCurrent(before, quota, held)
      invariant !fetched ==> obj == held
      invariant fetched ==> NamespaceIsCurrent(before, namespace, fields)
      decreases !fetched
    {
      var matches := Matches(obj, fields);
      var ok, quotaOk, namespaceOk := mapper.SetMapping(quota, obj, namespace, fields, !matches);
      if ok {
        return true;
      }
      if !namespaceOk {
        return false;
      }
      if cached.None? {
        return true;
      }
      obj, fetched := cached.value, true;
    }
  }

  /** What a listing of quotas leaves to visit. */
  function QuotasToVisit(listing: seq<(string, Selector)>): map<Key, Stamp> {
    if listing == [] then map[]
    else QuotasToVisit(listing[1..])[Quota(listing[0].0) := OfQuota(listing[0].1)]
  }

  lemma {:induction false} NextQuota(listing: seq<(string, Selector)>)
    requires Distinct(listing)
    ensures forall key | key in QuotasToVisit(listing) :: exists k :: 0 <= k < |listing| && key == Quota(listing[k].0)
    ensures listing != [] ==> QuotasToVisit(listing) - {Quota(listing[0].0)} == QuotasToVisit(listing[1..])
  {
    if listing != [] {
      NextQuota(listing[1..]);
      forall key | key in QuotasToVisit(listing)
        ensures exists k :: 0 <= k < |listing| && key == Quota(listing[k].0)
      {
        if key in QuotasToVisit(listing[1..]) {
          var k :| 0 <= k < |listing[1..]| && key == Quota(listing[1..][k].0);
          assert listing[k + 1].0 == listing[1..][k].0;
        }
      }
      assert Quota(listing[0].0) !in QuotasToVisit(listing[1..]);
    }
  }

  ghost predicate ListsQuotas(s: State, cache: map<string, Selector>) {
    && (forall q :: Quota(q) in s.store <==> q in cache)
    && (forall q | q in cache :: s.store[Quota(q)] == OfQuota(cache[q]))
  }

  /** The machine in which the scan of the namespace stands at the listing. */
  ghost predicate ScansNamespace(s: State, m: Mapping, namespace: string, fields: Fields,
                                 listing: seq<(string, Selector)>, cache: map<string, Selector>) {
    Stands(s, m, Namespace(namespace), OfNamespace(fields), QuotasToVisit(listing)) && ListsQuotas(s, cache)
  }

  /** Unlike a quota's, a scan that gives up leaves no stamp. */
  function NamespaceScanned(m: Mapping, namespace: string, fields: Fields,
                            listing: seq<(string, Selector)>, cache: map<string, Selector>): Mapping {
    if NamespaceIsCurrent(m, namespace, fields) || listing == []
    then Complete(AfterQuotas(m, namespace, fields, listing, cache), Namespace(namespace), OfNamespace(fields))
    else m
  }

  lemma FirstQuotaRuns(s: State, m: Mapping, namespace: string, fields: Fields, listing: seq<(string, Selector)>,
                       cache: map<string, Selector>)
    requires ScansNamespace(s, m, namespace, fields, listing, cache) && listing != []
    requires Consistent(m) && QuotasCurrent(m, cache) && Distinct(listing) && NamespaceIsCurrent(m, namespace, fields)
    ensures var first := AfterQuota(m, listing[0].0, listing[0].1, CachedIn(cache, listing[0].0), namespace, fields);
            var mid := MovedOn(s, first, Namespace(namespace), OfNamespace(fields), QuotasToVisit(listing[1..]));
            && Works(s, mid) && ScansNamespace(mid, first, namespace, fields, listing[1..], cache)
            && Consistent(first) && QuotasCurrent(first, cache) && NamespaceIsCurrent(first, namespace, fields)
  {
    var name, held := listing[0].0, listing[0].1;
    VisitsOne(s, Namespace(namespace), OfNamespace(fields), Quota(name), OfQuota(held), QuotasToVisit(listing));
    NextQuota(listing);
    QuotaEffect(m, name, held, CachedIn(cache, name), namespace, fields);
  }

  lemma {:induction false} NamespaceScanRuns(s: State, m: Mapping, namespace: string, fields: Fields,
                                             listing: seq<(string, Selector)>, cache: map<string, Selector>)
    requires ScansNamespace(s, m, namespace, fields, listing, cache)
    requires Consistent(m) && QuotasCurrent(m, cache) && Distinct(listing)
    ensures Works(s, Over(s, NamespaceScanned(m, namespace, fields, listing, cache), Namespace(namespace)))
    decreases listing
  {
    var key, own, todo := Namespace(namespace), OfNamespace(fields), QuotasToVisit(listing);
    if listing == [] {
      EndsStamped(s, key, own);
    } else if !NamespaceIsCurrent(m, namespace, fields) {
      EndsOutdated(s, key, own, Quota(listing[0].0), todo);
    } else {
      FirstQuotaRuns(s, m, namespace, fields, listing, cache);
      var first := AfterQuota(m, listing[0].0, listing[0].1, CachedIn(cache, listing[0].0), namespace, fields);
      var mid := MovedOn(s, first, key, own, QuotasToVisit(listing[1..]));
      NamespaceScanRuns(mid, first, namespace, fields, listing[1..], cache);
      OverLater(s, mid, first, NamespaceScanned(first, namespace, fields, listing[1..], cache), key, own,
                QuotasToVisit(listing[1..]));
    }
  }

  lemma EveryNamespaceScanRuns(m: Mapping, namespace: string, fields: Fields,
                               listing: seq<(string, Selector)>, cache: map<string, Selector>)
    requires Consistent(m) && QuotasCurrent(m, cache) && Distinct(listing)
    ensures forall s | ScansNamespace(s, m, namespace, fields, listing, cache) ::
              Works(s, Over(s, NamespaceScanned(m, namespace, fields, listing, cache), Namespace(namespace)))
  {
    forall s | ScansNamespace(s, m, namespace, fields, listing, cache)
      ensures Works(s, Over(s, NamespaceScanned(m, namespace, fields, listing, cache), Namespace(namespace)))
    {
      NamespaceScanRuns(s, m, namespace, fields, listing, cache);
    }
  }

  /** Goes through the listing until the namespace turns out to be outdated. */
  method VisitQuotas(mapper: Mapper, namespace: string, fields: Fields,
                     listing: seq<(string, Selector)>, cache: map<string, Selector>)
    returns (namespaceMatches: bool)
    requires mapper.Valid() && QuotasCurrent(mapper.Value(), cache) && Distinct(listing)
    modifies mapper
    ensures mapper.Valid() && mapper.Value() == AfterQuotas(old(mapper.Value()), namespace, fields, listing, cache)
    ensures namespaceMatches == (NamespaceIsCurrent(old(mapper.Value()), namespace, fields) || listing == [])
  {
    ghost var before := mapper.Value();
    var k := 0;
    while k < |listing|
      invariant k <= |listing| && mapper.Valid() && SameStamps(before, mapper.Value())
      invariant k > 0 ==> NamespaceIsCurrent(before, namespace, fields)
      invariant AfterQuotas(before, namespace, fields, listing, cache)
             == AfterQuotas(mapper.Value(), namespace, fields, listing[k..], cache)
    {
      var name, held := listing[k].0, listing[k].1;
      assert listing[k..][1..] == listing[k + 1..];
      QuotaEffect(mapper.Value(), name, held, CachedIn(cache, name), namespace, fields);
      QuotasEffect(mapper.Value(), namespace, fields, listing[k..], cache);
      var matches := VisitQuota(mapper, name, held, CachedIn(cache, name), namespace, fields);
      if !matches {
        return false;
      }
      k := k + 1;
    }
    return true;
  }

  /** The scan of one namespace over a listing of quotas. Unlike a quota's, it leaves no stamp
      when it gives up. */
  method SyncNamespace(mapper: Mapper, namespace: string, fields: Fields,
                       listing: seq<(string, Selector)>, cache: map<string, Selector>)
    requires mapper.Valid() && QuotasCurrent(mapper.Value(), cache) && Distinct(listing)
    modifies mapper
    ensures mapper.Valid()
    ensures forall s | ScansNamespace(s, old(mapper.Value()), namespace, fields, listing, cache) ::
              Works(s, Over(s, mapper.Value(), Namespace(namespace)))
    ensures SameStamps(if NamespaceIsCurrent(old(mapper.Value()), namespace, fields) || listing == []
                       then old(mapper.Value()).(completedNamespaces :=
                                                   old(mapper.completedNamespaces)[namespace := fields])
                       else old(mapper.Value()),
                       mapper.Value())
    ensures !NamespaceIsCurrent(old(mapper.Value()), namespace, fields) ==>
              forall q, n :: Linked(mapper.Value(), q, n) <==> Linked(old(mapper.Value()), q, n)
    ensures NamespaceIsCurrent(old(mapper.Value()), namespace, fields) ==>
              && (forall k | 0 <= k < |listing| ::
                    Linked(mapper.Value(), listing[k].0, namespace) <==>
                      SettlesFor(old(mapper.Value()), listing[k].0, listing[k].1, CachedIn(cache, listing[k].0),
                                 namespace, fields))
              && (forall q, n | n != namespace || (forall k | 0 <= k < |listing| :: listing[k].0 != q) ::
                    Linked(mapper.Value(), q, n) <==> Linked(old(mapper.Value()), q, n))
  {
    ghost var before := mapper.Value();
    var namespaceMatches := VisitQuotas(mapper, namespace, fields, listing, cache);
    QuotasEffect(before, namespace, fields, listing, cache);
    if namespaceMatches {
      mapper.CompleteNamespace(namespace, fields);
    }
    assert mapper.Value() == NamespaceScanned(before, namespace, fields, listing, cache);
    EveryNamespaceScanRuns(before, namespace, fields, listing, cache);
  }
}
