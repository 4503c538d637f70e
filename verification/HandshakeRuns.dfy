/** Short runs of the handshake with pods of one resource, to put longer runs together. */
module HandshakeRuns {
  import opened Resources
  import opened Handshake
  import opened HandshakeSafety
  import Admission

  function Gated(n: int): Pod {
    Pod(map["cpu" := n], {0}, [AAQ_GATE], false)
  }

  function Ungated(n: int): Pod {
    Pod(map["cpu" := n], {0}, [], false)
  }

  function Finished(n: int): Pod {
    Pod(map["cpu" := n], {0}, [], true)
  }

  /** Usage of a namespace with at most two pods. */
  lemma UsageOfTwo(pods: Pods, a: string, b: string)
    requires a != b && pods.Keys <= {a, b}
    ensures Usage(pods, 0, "cpu") == Contribution(pods, {}, a, 0, "cpu") + Contribution(pods, {}, b, 0, "cpu")
  {
    var m := Contributions(pods, {}, 0, "cpu");
    TotalSplit(m, a);
    TotalSplit(m - {a}, b);
    assert Get(m - {a}, b) == Get(m, b);
    assert m - {a} - {b} == map[];
  }

  /** Creating and observing a gated pod. */
  lemma Arrives(cl: Cluster, env: Environment, s: State, name: string, n: nat)
    requires name !in s.pods && name !in s.podCache && (env.namesReused || name !in s.created)
    ensures Leads(cl, env, s, s.(pods := s.pods[name := Gated(n)], podCache := s.podCache[name := Gated(n)],
                                     created := s.created + {name}))
  {
    LeadsHere(cl, env, s);
    var s1 := s.(pods := s.pods[name := Gated(n)], created := s.created + {name});
    assert Can(cl, env, s, CreatePod(name, Gated(n)));
    LeadsStep(cl, env, s, s, CreatePod(name, Gated(n)));
    assert Can(cl, env, s1, ObservePod(name, Gated(n)));
    LeadsStep(cl, env, s, s1, ObservePod(name, Gated(n)));
  }

  /** The gate releases the next pod of its list. */
  lemma Releases(cl: Cluster, env: Environment, s: State, name: string, rest: seq<string>, n: nat)
    requires s.gate == Releasing([name] + rest) && PodsReadable(env, s)
    requires name in s.pods && name in s.podCache && s.pods[name] == s.podCache[name] == Gated(n)
    ensures Leads(cl, env, s, s.(pods := s.pods[name := Ungated(n)], gate := Releasing(rest)))
  {
    LeadsHere(cl, env, s);
    assert Can(cl, env, s, GateRelease);
    LeadsStep(cl, env, s, s, GateRelease);
  }

  lemma ObservesPod(cl: Cluster, env: Environment, s: State, name: string, n: nat)
    requires name in s.pods && s.pods[name] == Ungated(n) && name in s.podCache && s.podCache[name] == Gated(n)
    ensures Leads(cl, env, s, s.(podCache := s.podCache[name := Ungated(n)]))
  {
    LeadsHere(cl, env, s);
    assert Can(cl, env, s, ObservePod(name, Ungated(n)));
    LeadsStep(cl, env, s, s, ObservePod(name, Ungated(n)));
  }

  /** A pod disappears from the API server and from the cache. */
  lemma Disappears(cl: Cluster, env: Environment, s: State, name: string)
    requires env.podsDeleted && name in s.pods && name in s.podCache
    ensures Leads(cl, env, s, s.(pods := s.pods - {name}, podCache := s.podCache - {name}))
  {
    LeadsHere(cl, env, s);
    assert Can(cl, env, s, DeletePod(name));
    LeadsStep(cl, env, s, s, DeletePod(name));
    var s1 := s.(pods := s.pods - {name});
    assert Can(cl, env, s1, ForgetPod(name));
    LeadsStep(cl, env, s, s1, ForgetPod(name));
  }

  lemma Stops(cl: Cluster, env: Environment, s: State)
    requires s.gate == Releasing([])
    ensures Leads(cl, env, s, s.(gate := Idle))
  {
    LeadsHere(cl, env, s);
    LeadsStep(cl, env, s, s, GateStop);
  }

  /** The gate creates the job queue object. */
  lemma CreatesQueue(cl: Cluster, env: Environment, s: State)
    requires s.gate.Idle? && s.history == []
    ensures Leads(cl, env, s, s.(history := [EMPTY_QUEUE]))
  {
    LeadsHere(cl, env, s);
    LeadsStep(cl, env, s, s, GateCreate);
  }

  lemma Finishes(cl: Cluster, env: Environment, s: State, name: string, n: nat)
    requires name in s.pods && s.podCache == s.pods && s.pods[name] == Ungated(n)
    ensures var pods' := s.pods[name := Finished(n)];
            Leads(cl, env, s, s.(pods := pods', podCache := pods'))
  {
    LeadsHere(cl, env, s);
    assert Can(cl, env, s, FinishPod(name));
    LeadsStep(cl, env, s, s, FinishPod(name));
    var s1 := s.(pods := s.pods[name := Finished(n)]);
    assert Can(cl, env, s1, ObservePod(name, Finished(n)));
    LeadsStep(cl, env, s, s1, ObservePod(name, Finished(n)));
  }

  /** The gate reads the current, processed job queue and decides. */
  lemma Decides(cl: Cluster, env: Environment, s: State, version: nat, listing: seq<string>, known: set<nat>)
    requires s.gate.Idle? && version + 1 == |s.history| && Processed(cl, s.history[version])
    requires env.quotaCacheLags || s.usedCache == s.used
    requires PodsReadable(env, s) && Lists(s.podCache, listing)
    requires |s.usedCache| == |cl.quotas| && Knows(cl, env.gateMapperLags, known)
    ensures var batch := DecideBatch(cl, known, s.usedCache, s.podCache, listing);
            Leads(cl, env, s, s.(gate := Chosen(version, Admission.Names(batch.accepted))))
  {
    LeadsHere(cl, env, s);
    assert Can(cl, env, s, GateRead(version));
    LeadsStep(cl, env, s, s, GateRead(version));
    var s1 := s.(gate := HasQuotas(version, s.usedCache));
    assert Can(cl, env, s1, GateDecide(listing, known));
    LeadsStep(cl, env, s, s1, GateDecide(listing, known));
  }

  /** It then commits the queue. */
  lemma Commits(cl: Cluster, env: Environment, s: State, version: nat, listing: seq<string>, known: set<nat>,
                queue: seq<string>)
    requires s.gate.Idle? && version + 1 == |s.history| && Processed(cl, s.history[version])
    requires env.quotaCacheLags || s.usedCache == s.used
    requires PodsReadable(env, s) && Lists(s.podCache, listing)
    requires |s.usedCache| == |cl.quotas| && queue != [] && Knows(cl, env.gateMapperLags, known)
    requires Admission.Names(DecideBatch(cl, known, s.usedCache, s.podCache, listing).accepted) == queue
    ensures Leads(cl, env, s, s.(gate := Releasing(queue),
                                 history := s.history + [JobQueue(queue, Some(AllLocks(cl)))]))
  {
    Decides(cl, env, s, version, listing, known);
    var s1 := s.(gate := Chosen(version, queue));
    assert Can(cl, env, s1, GateCommit);
    LeadsStep(cl, env, s, s1, GateCommit);
  }
}
