/** The two-way index between cluster quotas and namespaces. */
module ClusterQuotaMapper {
  import opened Resources

  // ---------------------------------------------------------------- selectors

  datatype Operator = In | NotIn | Exists | DoesNotExist

  datatype Requirement = Requirement(key: string, operator: Operator, values: set<string>)

  /** A missing label selector and an empty annotation selector select everything. */
  datatype Selector = Selector(labels: Option<seq<Requirement>>, annotations: map<string, string>)

  /** The parts of a namespace a selector can look at. */
  datatype Fields = Fields(labels: map<string, string>, annotations: map<string, string>)

  predicate Satisfies(labels: map<string, string>, r: Requirement) {
    match r.operator
    case In => r.key in labels && labels[r.key] in r.values
    case NotIn => r.key in labels ==> labels[r.key] !in r.values
    case Exists => r.key in labels
    case DoesNotExist => r.key !in labels
  }

  predicate Matches(selector: Selector, fields: Fields) {
    && (selector.labels.Some? ==> forall r | r in selector.labels.value :: Satisfies(fields.labels, r))
    && (forall k | k in selector.annotations ::
          k in fields.annotations && fields.annotations[k] == selector.annotations[k])
  }

  // ---------------------------------------------------------------- the index as a value

  /** required: the newest selector or fields an event reported; completed: those of the last
      finished scan; then the two indexes. */
  datatype Mapping = Mapping(
    requiredQuotas: map<string, Selector>,
    requiredNamespaces: map<string, Fields>,
    completedQuotas: map<string, Selector>,
    completedNamespaces: map<string, Fields>,
    quotaToNamespaces: map<string, set<string>>,
    namespaceToQuotas: map<string, set<string>>)

  const NO_MAPPING := Mapping(map[], map[], map[], map[], map[], map[])

  function Entry(index: map<string, set<string>>, name: string): set<string> {
    if name in index then index[name] else {}
  }

  predicate Has(index: map<string, set<string>>, name: string, element: string) {
    element in Entry(index, name)
  }

  predicate Linked(m: Mapping, quota: string, namespace: string) {
    Has(m.quotaToNamespaces, quota, namespace)
  }

  ghost predicate Inverse(quotaToNamespaces: map<string, set<string>>, namespaceToQuotas: map<string, set<string>>) {
    forall q, n :: Has(quotaToNamespaces, q, n) <==> Has(namespaceToQuotas, n, q)
  }

  ghost predicate OnlyRequired(quotaToNamespaces: map<string, set<string>>, quotas: set<string>,
                               namespaces: set<string>) {
    forall q, n | Has(quotaToNamespaces, q, n) :: q in quotas && n in namespaces
  }

  /** The indexes are inverse and mention only required quotas and namespaces. */
  ghost predicate Consistent(m: Mapping) {
    && Inverse(m.quotaToNamespaces, m.namespaceToQuotas)
    && OnlyRequired(m.quotaToNamespaces, m.requiredQuotas.Keys, m.requiredNamespaces.Keys)
  }

  predicate QuotaIsCurrent(m: Mapping, quota: string, selector: Selector) {
    quota in m.requiredQuotas && m.requiredQuotas[quota] == selector
  }

  predicate NamespaceIsCurrent(m: Mapping, namespace: string, fields: Fields) {
    namespace in m.requiredNamespaces && m.requiredNamespaces[namespace] == fields
  }

  /** Sets or removes one pair, if neither object is out of date. */
  function WithPair(m: Mapping, quota: string, selector: Selector, namespace: string, fields: Fields,
                    remove: bool): Mapping {
    if !QuotaIsCurrent(m, quota, selector) || !NamespaceIsCurrent(m, namespace, fields) then m
    else
      var namespaces, quotas := Entry(m.quotaToNamespaces, quota), Entry(m.namespaceToQuotas, namespace);
      m.(quotaToNamespaces := m.quotaToNamespaces[quota := if remove then namespaces - {namespace}
                                                  else namespaces + {namespace}],
         namespaceToQuotas := m.namespaceToQuotas[namespace := if remove then quotas - {quota} else quotas + {quota}])
  }

  function Without(index: map<string, set<string>>, key: string): map<string, set<string>> {
    map k | k in index && k != key :: index[k]
  }

  function Scrubbed(index: map<string, set<string>>, element: string): map<string, set<string>> {
    map k | k in index :: index[k] - {element}
  }

  /** Halfway through scrubbing: the keys in todo still have their old entry. */
  ghost function PartlyScrubbed(index: map<string, set<string>>, element: string, todo: set<string>)
    : map<string, set<string>>
  {
    map k | k in index :: if k in todo then index[k] else index[k] - {element}
  }

  function WithoutQuota(m: Mapping, quota: string): Mapping {
    m.(requiredQuotas := m.requiredQuotas - {quota},
       completedQuotas := m.completedQuotas - {quota},
       quotaToNamespaces := Without(m.quotaToNamespaces, quota),
       namespaceToQuotas := Scrubbed(m.namespaceToQuotas, quota))
  }

  function WithoutNamespace(m: Mapping, namespace: string): Mapping {
    m.(requiredNamespaces := m.requiredNamespaces - {namespace},
       completedNamespaces := m.completedNamespaces - {namespace},
       namespaceToQuotas := Without(m.namespaceToQuotas, namespace),
       quotaToNamespaces := Scrubbed(m.quotaToNamespaces, namespace))
  }

  /** What a write does to the relation: it changes the one pair, exactly when both objects
      are the ones last reported. */
  lemma WithPairEffect(m: Mapping, quota: string, selector: Selector, namespace: string, fields: Fields, remove: bool)
    requires Consistent(m)
    ensures var after := WithPair(m, quota, selector, namespace, fields, remove);
            && Consistent(after)
            && forall q, n :: Linked(after, q, n) <==>
                 if q == quota && n == namespace && QuotaIsCurrent(m, quota, selector)
                      && NamespaceIsCurrent(m, namespace, fields)
                 then !remove else Linked(m, q, n)
  {
    var after := WithPair(m, quota, selector, namespace, fields, remove);
    forall q, n
      ensures Has(after.quotaToNamespaces, q, n) <==> Has(after.namespaceToQuotas, n, q)
      ensures Linked(after, q, n) <==>
                if q == quota && n == namespace && QuotaIsCurrent(m, quota, selector)
                     && NamespaceIsCurrent(m, namespace, fields)
                then !remove else Linked(m, q, n)
    {
      assert Has(m.quotaToNamespaces, q, n) <==> Has(m.namespaceToQuotas, n, q);
      assert Has(m.quotaToNamespaces, quota, namespace) <==> Has(m.namespaceToQuotas, namespace, quota);
    }
  }

  lemma WithoutQuotaEffect(m: Mapping, quota: string)
    requires Consistent(m)
    ensures Consistent(WithoutQuota(m, quota))
    ensures forall q, n :: Linked(WithoutQuota(m, quota), q, n) <==> q != quota && Linked(m, q, n)
  {
    var after := WithoutQuota(m, quota);
    forall q, n
      ensures Has(after.quotaToNamespaces, q, n) <==> Has(after.namespaceToQuotas, n, q)
      ensures Linked(after, q, n) <==> q != quota && Linked(m, q, n)
    {
      assert Has(m.quotaToNamespaces, q, n) <==> Has(m.namespaceToQuotas, n, q);
    }
  }

  lemma WithoutNamespaceEffect(m: Mapping, namespace: string)
    requires Consistent(m)
    ensures Consistent(WithoutNamespace(m, namespace))
    ensures forall q, n :: Linked(WithoutNamespace(m, namespace), q, n) <==> n != namespace && Linked(m, q, n)
  {
    var after := WithoutNamespace(m, namespace);
    forall q, n
      ensures Has(after.quotaToNamespaces, q, n) <==> Has(after.namespaceToQuotas, n, q)
      ensures Linked(after, q, n) <==> n != namespace && Linked(m, q, n)
    {
      assert Has(m.quotaToNamespaces, q, n) <==> Has(m.namespaceToQuotas, n, q);
    }
  }

  // ---------------------------------------------------------------- what listeners are told

  datatype Call = AddMapping(quota: string, namespace: string) | RemoveMapping(quota: string, namespace: string)

  function Apply(relation: set<(string, string)>, call: Call): set<(string, string)> {
    if call.AddMapping? then relation + {(call.quota, call.namespace)} else relation - {(call.quota, call.namespace)}
  }

  /** The call reports something the listener did not know yet. */
  predicate IsNews(relation: set<(string, string)>, call: Call) {
    call.AddMapping? <==> (call.quota, call.namespace) !in relation
  }

  /** The relation a listener rebuilds from its calls. */
  function Replay(calls: seq<Call>): set<(string, string)> {
    if calls == [] then {} else Apply(Replay(calls[..|calls| - 1]), calls[|calls| - 1])
  }

  /** Every call reports a genuine change. */
  predicate Genuine(calls: seq<Call>) {
    calls == [] || (Genuine(calls[..|calls| - 1]) && IsNews(Replay(calls[..|calls| - 1]), calls[|calls| - 1]))
  }

  /** The calls add up to the relation the index holds. */
  ghost predicate Rebuilds(calls: seq<Call>, quotaToNamespaces: map<string, set<string>>) {
    forall q, n :: (q, n) in Replay(calls) <==> Has(quotaToNamespaces, q, n)
  }

  ghost predicate RebuildsInverse(calls: seq<Call>, namespaceToQuotas: map<string, set<string>>) {
    forall q, n :: (q, n) in Replay(calls) <==> Has(namespaceToQuotas, n, q)
  }

  lemma BothSidesRebuilt(calls: seq<Call>, quotaToNamespaces: map<string, set<string>>,
                         namespaceToQuotas: map<string, set<string>>)
    requires Inverse(quotaToNamespaces, namespaceToQuotas)
    ensures Rebuilds(calls, quotaToNamespaces) <==> RebuildsInverse(calls, namespaceToQuotas)
  {
  }

  lemma ReplayOneMore(calls: seq<Call>, call: Call)
    ensures Replay(calls + [call]) == Apply(Replay(calls), call)
    ensures Genuine(calls + [call]) <==> Genuine(calls) && IsNews(Replay(calls), call)
  {
    assert (calls + [call])[..|calls|] == calls;
  }

  // ---------------------------------------------------------------- the mapper

  class Mapper {
    var requiredQuotas: map<string, Selector>
    var requiredNamespaces: map<string, Fields>
    var completedQuotas: map<string, Selector>
    var completedNamespaces: map<string, Fields>
    var quotaToNamespaces: map<string, set<string>>
    var namespaceToQuotas: map<string, set<string>>
    /** Everything a listener registered from the start has been told. */
    ghost var calls: seq<Call>

    ghost function Value(): Mapping
      reads this
    {
      Mapping(requiredQuotas, requiredNamespaces, completedQuotas, completedNamespaces, quotaToNamespaces,
              namespaceToQuotas)
    }

    /** The indexes are consistent, and the calls made so far were genuine changes that add up
        to the current relation. */
    ghost predicate Valid()
      reads this
    {
      && Consistent(Value())
      && Genuine(calls)
      && Rebuilds(calls, quotaToNamespaces)
    }

    constructor ()
      ensures Valid() && Value() == NO_MAPPING && calls == []
    {
      requiredQuotas, requiredNamespaces, completedQuotas, completedNamespaces := map[], map[], map[], map[];
      quotaToNamespaces, namespaceToQuotas, calls := map[], map[], [];
    }

    method GetClusterQuotasFor(namespace: string) returns (quotas: set<string>, fields: Option<Fields>)
      requires Valid()
      ensures forall q :: q in quotas <==> Linked(Value(), q, namespace)
      ensures fields == if namespace in completedNamespaces then Some(completedNamespaces[namespace]) else None
    {
      quotas := if namespace in namespaceToQuotas then namespaceToQuotas[namespace] else {};
      fields := if namespace in completedNamespaces then Some(completedNamespaces[namespace]) else None;
      assert forall q :: Has(Value().namespaceToQuotas, namespace, q) <==> Linked(Value(), q, namespace);
    }

    method GetNamespacesFor(quota: string) returns (namespaces: set<string>, selector: Option<Selector>)
      requires Valid()
      ensures forall n :: n in namespaces <==> Linked(Value(), quota, n)
      ensures selector == if quota in completedQuotas then Some(completedQuotas[quota]) else None
    {
      namespaces := if quota in quotaToNamespaces then quotaToNamespaces[quota] else {};
      selector := if quota in completedQuotas then Some(completedQuotas[quota]) else None;
    }

    method RequireQuota(quota: string, selector: Selector) returns (modified: bool)
      requires Valid()
      modifies this`requiredQuotas
      ensures Valid() && modified == !QuotaIsCurrent(old(Value()), quota, selector)
      ensures Value() == old(Value()).(requiredQuotas := old(requiredQuotas)[quota := selector])
    {
      modified := !(quota in requiredQuotas && requiredQuotas[quota] == selector);
      requiredQuotas := requiredQuotas[quota := selector];
    }

    method RequireNamespace(namespace: string, fields: Fields) returns (modified: bool)
      requires Valid()
      modifies this`requiredNamespaces
      ensures Valid() && modified == !NamespaceIsCurrent(old(Value()), namespace, fields)
      ensures Value() == old(Value()).(requiredNamespaces := old(requiredNamespaces)[namespace := fields])
    {
      modified := !(namespace in requiredNamespaces && requiredNamespaces[namespace] == fields);
      requiredNamespaces := requiredNamespaces[namespace := fields];
    }

    method CompleteQuota(quota: string, selector: Selector)
      requires Valid()
      modifies this`completedQuotas
      ensures Valid() && Value() == old(Value()).(completedQuotas := old(completedQuotas)[quota := selector])
    {
      completedQuotas := completedQuotas[quota := selector];
    }

    method CompleteNamespace(namespace: string, fields: Fields)
      requires Valid()
      modifies this`completedNamespaces
      ensures Valid() && Value() == old(Value()).(completedNamespaces := old(completedNamespaces)[namespace := fields])
    {
      completedNamespaces := completedNamespaces[namespace := fields];
    }

    /** Returns whether the write happened, and whether the quota and the namespace given are
        the ones last reported. */
    method SetMapping(quota: string, selector: Selector, namespace: string, fields: Fields, remove: bool)
      returns (ok: bool, quotaMatches: bool, namespaceMatches: bool)
      requires Valid()
      modifies this`quotaToNamespaces, this`namespaceToQuotas, this`calls
      ensures Valid() && old(calls) <= calls
      ensures Value() == WithPair(old(Value()), quota, selector, namespace, fields, remove)
      ensures quotaMatches == QuotaIsCurrent(Value(), quota, selector)
      ensures namespaceMatches == NamespaceIsCurrent(Value(), namespace, fields)
      ensures ok == (quotaMatches && namespaceMatches)
    {
      quotaMatches := quota in requiredQuotas && requiredQuotas[quota] == selector;
      namespaceMatches := namespace in requiredNamespaces && requiredNamespaces[namespace] == fields;
      ok := quotaMatches && namespaceMatches;
      if !ok {
        return;
      }
      ghost var before := Value();
      WithPairEffect(before, quota, selector, namespace, fields, remove);
      var mutated := WritePair(quota, selector, namespace, fields, remove);
      assert Linked(Value(), quota, namespace) == !remove;
      if mutated {
        Notify(if remove then RemoveMapping(quota, namespace) else AddMapping(quota, namespace));
      }
    }

    /** Writes the pair of two current objects; was it news? */
    method WritePair(quota: string, ghost selector: Selector, namespace: string, ghost fields: Fields, remove: bool)
      returns (mutated: bool)
      requires Consistent(Value())
      requires QuotaIsCurrent(Value(), quota, selector) && NamespaceIsCurrent(Value(), namespace, fields)
      modifies this`quotaToNamespaces, this`namespaceToQuotas
      ensures Value() == WithPair(old(Value()), quota, selector, namespace, fields, remove)
      ensures mutated == (Linked(old(Value()), quota, namespace) == remove)
    {
      ghost var before := Value();
      assert Has(before.quotaToNamespaces, quota, namespace) <==> Has(before.namespaceToQuotas, namespace, quota);
      if remove {
        mutated := DropPair(quota, namespace);
      } else {
        mutated := AddPair(quota, namespace);
      }
    }

    method DropPair(quota: string, namespace: string) returns (mutated: bool)
      modifies this`quotaToNamespaces, this`namespaceToQuotas
      ensures quotaToNamespaces == old(quotaToNamespaces)[quota := Entry(old(quotaToNamespaces), quota) - {namespace}]
      ensures namespaceToQuotas == old(namespaceToQuotas)
                                  [namespace := Entry(old(namespaceToQuotas), namespace) - {quota}]
      ensures mutated == (Has(old(quotaToNamespaces), quota, namespace)
                          || Has(old(namespaceToQuotas), namespace, quota))
    {
      assert {} - {namespace} == {} && {} - {quota} == {};
      mutated := false;
      if quota !in quotaToNamespaces {
        quotaToNamespaces := quotaToNamespaces[quota := {}];
      } else {
        mutated := namespace in quotaToNamespaces[quota];
        quotaToNamespaces := quotaToNamespaces[quota := quotaToNamespaces[quota] - {namespace}];
      }
      if namespace !in namespaceToQuotas {
        namespaceToQuotas := namespaceToQuotas[namespace := {}];
      } else {
        mutated := mutated || quota in namespaceToQuotas[namespace];
        namespaceToQuotas := namespaceToQuotas[namespace := namespaceToQuotas[namespace] - {quota}];
      }
    }

    method AddPair(quota: string, namespace: string) returns (mutated: bool)
      modifies this`quotaToNamespaces, this`namespaceToQuotas
      ensures quotaToNamespaces == old(quotaToNamespaces)[quota := Entry(old(quotaToNamespaces), quota) + {namespace}]
      ensures namespaceToQuotas == old(namespaceToQuotas)
                                  [namespace := Entry(old(namespaceToQuotas), namespace) + {quota}]
      ensures mutated == !(Has(old(quotaToNamespaces), quota, namespace)
                           && Has(old(namespaceToQuotas), namespace, quota))
    {
      assert {} + {namespace} == {namespace} && {} + {quota} == {quota};
      if quota !in quotaToNamespaces {
        mutated := true;
        quotaToNamespaces := quotaToNamespaces[quota := {namespace}];
      } else {
        mutated := namespace !in quotaToNamespaces[quota];
        quotaToNamespaces := quotaToNamespaces[quota := quotaToNamespaces[quota] + {namespace}];
      }
      if namespace !in namespaceToQuotas {
        mutated := true;
        namespaceToQuotas := namespaceToQuotas[namespace := {quota}];
      } else {
        mutated := mutated || quota !in namespaceToQuotas[namespace];
        namespaceToQuotas := namespaceToQuotas[namespace := namespaceToQuotas[namespace] + {quota}];
      }
    }

    ghost method Notify(call: Call)
      modifies this`calls
      ensures calls == old(calls) + [call]
      ensures Replay(calls) == Apply(Replay(old(calls)), call)
      ensures Genuine(calls) <==> Genuine(old(calls)) && IsNews(Replay(old(calls)), call)
    {
      ReplayOneMore(calls, call);
      calls := calls + [call];
    }

    /** Drops a quota from every map, telling listeners about each pair that goes. */
    method RemoveQuota(quota: string)
      requires Valid()
      modifies this
      ensures Valid() && old(calls) <= calls
      ensures Value() == WithoutQuota(old(Value()), quota)
    {
      ghost var before := Value();
      WithoutQuotaEffect(before, quota);
      requiredQuotas := requiredQuotas - {quota};
      completedQuotas := completedQuotas - {quota};
      quotaToNamespaces := Without(quotaToNamespaces, quota);
      BothSidesRebuilt(calls, before.quotaToNamespaces, namespaceToQuotas);
      ScrubQuota(quota);
      assert Value() == WithoutQuota(before, quota);
      BothSidesRebuilt(calls, quotaToNamespaces, namespaceToQuotas);
    }

    method ScrubQuota(quota: string)
      requires Genuine(calls) && RebuildsInverse(calls, namespaceToQuotas)
      modifies this`namespaceToQuotas, this`calls
      ensures namespaceToQuotas == Scrubbed(old(namespaceToQuotas), quota)
      ensures Genuine(calls) && old(calls) <= calls && RebuildsInverse(calls, namespaceToQuotas)
    {
      ghost var before := namespaceToQuotas;
      var todo := namespaceToQuotas.Keys;
      while todo != {}
        invariant todo <= before.Keys
        invariant namespaceToQuotas == PartlyScrubbed(before, quota, todo)
        invariant Genuine(calls) && old(calls) <= calls && RebuildsInverse(calls, namespaceToQuotas)
        decreases todo
      {
        var namespace :| namespace in todo;
        todo := todo - {namespace};
        ForgetQuota(namespace, quota);
      }
    }

    method ForgetQuota(namespace: string, quota: string)
      requires namespace in namespaceToQuotas && Genuine(calls) && RebuildsInverse(calls, namespaceToQuotas)
      modifies this`namespaceToQuotas, this`calls
      ensures namespaceToQuotas == old(namespaceToQuotas)[namespace := old(namespaceToQuotas)[namespace] - {quota}]
      ensures Genuine(calls) && old(calls) <= calls && RebuildsInverse(calls, namespaceToQuotas)
    {
      if quota in namespaceToQuotas[namespace] {
        assert Has(namespaceToQuotas, namespace, quota);
        namespaceToQuotas := namespaceToQuotas[namespace := namespaceToQuotas[namespace] - {quota}];
        Notify(RemoveMapping(quota, namespace));
      } else {
        assert namespaceToQuotas[namespace] - {quota} == namespaceToQuotas[namespace];
      }
    }

    /** Drops a namespace from every map, telling listeners about each pair that goes. */
    method RemoveNamespace(namespace: string)
      requires Valid()
      modifies this
      ensures Valid() && old(calls) <= calls
      ensures Value() == WithoutNamespace(old(Value()), namespace)
    {
      ghost var before := Value();
      WithoutNamespaceEffect(before, namespace);
      requiredNamespaces := requiredNamespaces - {namespace};
      completedNamespaces := completedNamespaces - {namespace};
      namespaceToQuotas := Without(namespaceToQuotas, namespace);
      ScrubNamespace(namespace);
      assert Value() == WithoutNamespace(before, namespace);
    }

    method ScrubNamespace(namespace: string)
      requires Genuine(calls) && Rebuilds(calls, quotaToNamespaces)
      modifies this`quotaToNamespaces, this`calls
      ensures quotaToNamespaces == Scrubbed(old(quotaToNamespaces), namespace)
      ensures Genuine(calls) && old(calls) <= calls && Rebuilds(calls, quotaToNamespaces)
    {
      ghost var before := quotaToNamespaces;
      var todo := quotaToNamespaces.Keys;
      while todo != {}
        invariant todo <= before.Keys
        invariant quotaToNamespaces == PartlyScrubbed(before, namespace, todo)
        invariant Genuine(calls) && old(calls) <= calls && Rebuilds(calls, quotaToNamespaces)
        decreases todo
      {
        var quota :| quota in todo;
        todo := todo - {quota};
        ForgetNamespace(quota, namespace);
      }
    }

    method ForgetNamespace(quota: string, namespace: string)
      requires quota in quotaToNamespaces && Genuine(calls) && Rebuilds(calls, quotaToNamespaces)
      modifies this`quotaToNamespaces, this`calls
      ensures quotaToNamespaces == old(quotaToNamespaces)[quota := old(quotaToNamespaces)[quota] - {namespace}]
      ensures Genuine(calls) && old(calls) <= calls && Rebuilds(calls, quotaToNamespaces)
    {
      if namespace in quotaToNamespaces[quota] {
        assert Has(quotaToNamespaces, quota, namespace);
        quotaToNamespaces := quotaToNamespaces[quota := quotaToNamespaces[quota] - {namespace}];
        Notify(RemoveMapping(quota, namespace));
      } else {
        assert quotaToNamespaces[quota] - {namespace} == quotaToNamespaces[quota];
      }
    }
  }
}
