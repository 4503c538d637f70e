/** What the launcher pods of a virtual machine instance are charged, before, during and
    after a migration. */
module VmiUsage {
  import opened Resources

  // ---------------------------------------------------------------- objects

  const TWO_TO_THE_32 := 0x1_0000_0000

  type uint32 = x: int | 0 <= x < TWO_TO_THE_32

  datatype CpuTopology = CpuTopology(cores: uint32, sockets: uint32, threads: uint32)

  /** `hugepages` is the page size, None when it is unset or does not parse; `node` is empty
      until the instance runs somewhere. */
  datatype Vmi = Vmi(
    name: string, uid: string, node: string,
    guest: Option<int>, hugepages: Option<int>, requests: Option<ResourceList>, limits: Option<ResourceList>,
    cpu: CpuTopology, currentTopology: Option<CpuTopology>)

  datatype Owner = Owner(kind: string, name: string, uid: string)

  /** `finished` is a terminal phase, `expired` a pod stuck past its deletion grace period,
      `podUsage` what the ordinary pod evaluator charges. */
  datatype Pod = Pod(
    name: string, labels: map<string, string>, annotations: map<string, string>, owners: seq<Owner>,
    node: string, created: nat, finished: bool, expired: bool, podUsage: ResourceList)

  datatype Migration = Migration(name: string, uid: string, vmiName: string, failed: bool, created: nat)

  const VMI_KIND := "VirtualMachineInstance"
  const APP_LABEL := "kubevirt.io"
  const LAUNCHER := "virt-launcher"
  const MIGRATION_JOB_LABEL := "kubevirt.io/migrationJobUID"
  const MIGRATION_JOB_NAME := "kubevirt.io/migrationJobName"

  // ---------------------------------------------------------------- virtual CPUs

  /** One factor of the 32-bit product; zero factors do not count. */
  function Times(product: uint32, factor: uint32): uint32 {
    if factor == 0 then product
    else if product == 0 then factor
    else product * factor % TWO_TO_THE_32
  }

  function VCpus(t: CpuTopology): uint32 {
    Times(Times(t.cores, t.sockets), t.threads)
  }

  method GetNumberOfVCPUs(t: CpuTopology) returns (vcpus: int)
    ensures vcpus == VCpus(t)
  {
    var v: uint32 := t.cores;
    if t.sockets != 0 {
      if v == 0 {
        v := t.sockets;
      } else {
        v := v * t.sockets % TWO_TO_THE_32;
      }
    }
    if t.threads != 0 {
      if v == 0 {
        v := t.threads;
      } else {
        v := v * t.threads % TWO_TO_THE_32;
      }
    }
    vcpus := v;
  }

  function OneIfZero(x: int): int {
    if x == 0 then 1 else x
  }

  /** The product of the non-zero fields, without bound; zero when every field is. */
  function Product(t: CpuTopology): int {
    if t.cores == 0 && t.sockets == 0 && t.threads == 0 then 0
    else OneIfZero(t.cores) * OneIfZero(t.sockets) * OneIfZero(t.threads)
  }

  lemma ProductGrows(x: int, y: int)
    requires x >= 1 && y >= 1
    ensures x * y >= x && x * y >= y
  {
    assert x * y - y == (x - 1) * y && x * y - x == x * (y - 1);
  }

  lemma TimesIsExact(product: uint32, factor: uint32)
    requires product >= 1 && OneIfZero(factor) * product < TWO_TO_THE_32
    ensures Times(product, factor) == product * OneIfZero(factor)
  {
  }

  /** The figure is the product of the non-zero fields exactly while that fits in 32 bits. */
  lemma VCpusIsProduct(t: CpuTopology)
    ensures VCpus(t) == Product(t) <==> Product(t) < TWO_TO_THE_32
  {
    if Product(t) < TWO_TO_THE_32 && Product(t) != 0 {
      var c, s, h: int := OneIfZero(t.cores), OneIfZero(t.sockets), OneIfZero(t.threads);
      ProductGrows(c, s);
      ProductGrows(c * s, h);
      if t.cores == 0 && t.sockets == 0 {
      } else {
        assert Times(t.cores, t.sockets) == c * s;
        assert h * (c * s) == c * s * h;
        TimesIsExact(Times(t.cores, t.sockets), t.threads);
      }
    }
  }

  /** Beyond that it is not even the product modulo 2^32: a partial product that wraps to
      zero is dropped like an unset field. */
  lemma WrappedProductIsDropped()
    ensures var t := CpuTopology(65536, 65536, 3);
            VCpus(t) == 3 && Product(t) % TWO_TO_THE_32 == 0
  {
    var t := CpuTopology(65536, 65536, 3);
    assert Product(t) == 3 * TWO_TO_THE_32;
  }

  // ---------------------------------------------------------------- usage of the instance

  /** The entry of the first of two names that is present. */
  function Either(list: Option<ResourceList>, preferred: string, fallback: string): Option<int> {
    if list.None? then None
    else if preferred in list.value then Some(list.value[preferred])
    else if fallback in list.value then Some(list.value[fallback])
    else None
  }

  function Single(name: string, value: Option<int>): ResourceList {
    match value
    case None => map[]
    case Some(quantity) => map[name := quantity]
  }

  function DomainRequests(vmi: Vmi): ResourceList {
    Single("requests.memory", Either(vmi.requests, "requests.memory", "memory"))
  }

  function DomainLimits(vmi: Vmi): ResourceList {
    Single("limits.memory", Either(vmi.limits, "limits.memory", "memory"))
  }

  function MemoryRequest(vmi: Vmi): ResourceList {
    var guest := Single("requests.memory", vmi.guest);
    MaxOf(MaxOf(guest, DomainRequests(vmi)), Single("requests.memory", vmi.hugepages))
  }

  function MemoryLimit(vmi: Vmi): ResourceList {
    var guest := Single("requests.memory", vmi.guest);
    MaxOf(MaxOf(guest, DomainLimits(vmi)), map["limits.memory" := Get(MemoryRequest(vmi), "requests.memory")])
  }

  function Topology(vmi: Vmi, isSource: bool): CpuTopology {
    if isSource && vmi.currentTopology.Some? then vmi.currentTopology.value else vmi.cpu
  }

  /** The usage of the instance behind a launcher pod, from its current CPU topology for the
      source or only pod and from its specification for a migration target. */
  function LauncherUsage(vmi: Vmi, isSource: bool): ResourceList {
    var vcpus := VCpus(Topology(vmi, isSource));
    var cpuRequest := MaxOf(map["requests.cpu" := vcpus], DomainRequests(vmi));
    var cpuLimit := MaxOf(map["limits.cpu" := vcpus], DomainLimits(vmi));
    OnePod(Get(MemoryRequest(vmi), "requests.memory"), Get(cpuRequest, "requests.cpu"),
           Get(MemoryLimit(vmi), "limits.memory"), Get(cpuLimit, "limits.cpu"))
  }

  function OnePod(memoryRequest: int, cpuRequest: int, memoryLimit: int, cpuLimit: int): ResourceList {
    var requests := map["requests.memory" := memoryRequest, "requests.cpu" := cpuRequest];
    var limits := map["limits.memory" := memoryLimit, "limits.cpu" := cpuLimit];
    Add(Add(map["pods" := 1], requests), limits)
  }

  /** The largest of the quantities that are present. */
  function Largest(a: Option<int>, b: Option<int>): Option<int> {
    if a.None? then b else if b.None? then a else Some(Max(a.value, b.value))
  }

  function OrZero(a: Option<int>): int {
    match a
    case None => 0
    case Some(value) => value
  }

  function RequestedMemory(vmi: Vmi): int {
    OrZero(Largest(Largest(vmi.guest, Either(vmi.requests, "requests.memory", "memory")), vmi.hugepages))
  }

  function LimitedMemory(vmi: Vmi): int {
    OrZero(Largest(Either(vmi.limits, "limits.memory", "memory"), Some(RequestedMemory(vmi))))
  }

  lemma MaxOfAt(a: ResourceList, b: ResourceList, r: string)
    ensures r in MaxOf(a, b) <==> r in a || r in b
    ensures r in a && r !in b ==> MaxOf(a, b)[r] == a[r]
    ensures r !in a && r in b ==> MaxOf(a, b)[r] == b[r]
    ensures r in a && r in b ==> MaxOf(a, b)[r] == Max(a[r], b[r])
  {
  }

  lemma MemoryOfInstance(vmi: Vmi)
    ensures Get(MemoryRequest(vmi), "requests.memory") == RequestedMemory(vmi)
    ensures Get(MemoryLimit(vmi), "limits.memory") == LimitedMemory(vmi)
  {
    NamesDiffer();
    var guest := Single("requests.memory", vmi.guest);
    MaxOfAt(guest, DomainRequests(vmi), "requests.memory");
    MaxOfAt(MaxOf(guest, DomainRequests(vmi)), Single("requests.memory", vmi.hugepages), "requests.memory");
    MaxOfAt(guest, DomainLimits(vmi), "limits.memory");
    var request := map["limits.memory" := Get(MemoryRequest(vmi), "requests.memory")];
    MaxOfAt(MaxOf(guest, DomainLimits(vmi)), request, "limits.memory");
  }

  lemma LauncherIsOnePod(vmi: Vmi, isSource: bool)
    ensures var vcpus := VCpus(Topology(vmi, isSource));
            LauncherUsage(vmi, isSource) == OnePod(RequestedMemory(vmi), vcpus, LimitedMemory(vmi), vcpus)
  {
    MemoryOfInstance(vmi);
    CpuOfInstance(vmi, VCpus(Topology(vmi, isSource)));
  }

  /** What the usage comes to: memory is requested for the largest of guest memory, request
      and page size and limited by the larger of that and the limit, and both CPU figures are
      the virtual CPUs. */
  lemma UsageOfInstance(vmi: Vmi, isSource: bool)
    ensures LauncherUsage(vmi, isSource)
         == map["pods" := 1, "requests.memory" := RequestedMemory(vmi), "limits.memory" := LimitedMemory(vmi),
                "requests.cpu" := VCpus(Topology(vmi, isSource)), "limits.cpu" := VCpus(Topology(vmi, isSource))]
  {
    var vcpus := VCpus(Topology(vmi, isSource));
    LauncherIsOnePod(vmi, isSource);
    OnePodIs(RequestedMemory(vmi), vcpus, LimitedMemory(vmi), vcpus);
  }

  lemma OnePodIs(memoryRequest: int, cpuRequest: int, memoryLimit: int, cpuLimit: int)
    ensures OnePod(memoryRequest, cpuRequest, memoryLimit, cpuLimit)
         == map["pods" := 1, "requests.memory" := memoryRequest, "limits.memory" := memoryLimit,
                "requests.cpu" := cpuRequest, "limits.cpu" := cpuLimit]
    ensures "limits.memory" in OnePod(memoryRequest, cpuRequest, memoryLimit, cpuLimit)
    ensures OnePod(memoryRequest, cpuRequest, memoryLimit, cpuLimit)["limits.memory"] == memoryLimit
    ensures "limits.cpu" in OnePod(memoryRequest, cpuRequest, memoryLimit, cpuLimit)
    ensures OnePod(memoryRequest, cpuRequest, memoryLimit, cpuLimit)["limits.cpu"] == cpuLimit
  {
    NamesDiffer();
    AddFive("pods", "requests.memory", "requests.cpu", "limits.memory", "limits.cpu",
            1, memoryRequest, cpuRequest, memoryLimit, cpuLimit);
  }

  lemma CpuOfInstance(vmi: Vmi, vcpus: int)
    ensures Get(MaxOf(map["requests.cpu" := vcpus], DomainRequests(vmi)), "requests.cpu") == vcpus
    ensures Get(MaxOf(map["limits.cpu" := vcpus], DomainLimits(vmi)), "limits.cpu") == vcpus
  {
    NamesDiffer();
    MaxOfAt(map["requests.cpu" := vcpus], DomainRequests(vmi), "requests.cpu");
    MaxOfAt(map["limits.cpu" := vcpus], DomainLimits(vmi), "limits.cpu");
  }

  lemma AddDisjoint(a: ResourceList, b: ResourceList)
    requires a.Keys !! b.Keys
    ensures Add(a, b) == a + b
  {
  }

  lemma AddFive(a: string, b: string, c: string, d: string, e: string, u: int, v: int, w: int, x: int, y: int)
    requires a != b && a != c && a != d && a != e && b != c && b != d && b != e && c != d && c != e && d != e
    ensures Add(Add(map[a := u], map[b := v, c := w]), map[d := x, e := y])
              == map[a := u, b := v, d := x, c := w, e := y]
  {
    var three, two := map[a := u, b := v, c := w], map[d := x, e := y];
    AddThree(a, b, c, u, v, w);
    AddDisjoint(three, two);
    assert three + two == map[a := u, b := v, d := x, c := w, e := y];
  }

  lemma AddThree(a: string, b: string, c: string, u: int, v: int, w: int)
    requires a != b && a != c && b != c
    ensures Add(map[a := u], map[b := v, c := w]) == map[a := u, b := v, c := w]
  {
    AddDisjoint(map[a := u], map[b := v, c := w]);
  }

  lemma NamesDiffer()
    ensures var names := ["pods", "requests.memory", "limits.memory", "requests.cpu", "limits.cpu"];
            forall j, k | 0 <= j < k < |names| :: names[j] != names[k]
  {
    assert "pods"[0] == 'p' && "requests.memory"[0] == 'r' && "limits.memory"[0] == 'l';
    assert |"requests.memory"| == 15 && |"requests.cpu"| == 12 && |"limits.memory"| == 13 && |"limits.cpu"| == 10;
  }

  datatype Config = VmiPodUsage | VirtualResources | DedicatedVirtualResources | Unknown

  /** The memory and CPU of the list under the names reserved for instances; limits, where
      present, take the place of requests. */
  function Dedicated(usage: ResourceList): ResourceList {
    var count := map["requests.instances/vmi" := 1];
    var memory := Single("requests.memory/vmi", Either(Some(usage), "limits.memory", "requests.memory"));
    var cpu := Single("requests.cpu/vmi", Either(Some(usage), "limits.cpu", "requests.cpu"));
    count + memory + cpu
  }

  lemma DedicatedFromLimits(usage: ResourceList)
    requires "limits.memory" in usage && "limits.cpu" in usage
    ensures Dedicated(usage) == map["requests.instances/vmi" := 1, "requests.memory/vmi" := usage["limits.memory"],
                                    "requests.cpu/vmi" := usage["limits.cpu"]]
  {
  }

  /** Counted in names of its own an instance is one instance, its memory limit and its
      virtual CPUs. */
  lemma DedicatedUsageOfInstance(vmi: Vmi, isSource: bool)
    ensures Dedicated(LauncherUsage(vmi, isSource))
         == map["requests.instances/vmi" := 1, "requests.memory/vmi" := LimitedMemory(vmi),
                "requests.cpu/vmi" := VCpus(Topology(vmi, isSource))]
  {
    var vcpus := VCpus(Topology(vmi, isSource));
    LauncherIsOnePod(vmi, isSource);
    OnePodIs(RequestedMemory(vmi), vcpus, LimitedMemory(vmi), vcpus);
    DedicatedFromLimits(LauncherUsage(vmi, isSource));
  }

  /** An unknown configuration falls back to the pod evaluator, which is also the default. */
  function UsageByConfig(config: Config, pod: Pod, vmi: Vmi, isSource: bool): ResourceList {
    match config
    case VirtualResources => LauncherUsage(vmi, isSource)
    case DedicatedVirtualResources => Dedicated(LauncherUsage(vmi, isSource))
    case _ => pod.podUsage
  }

  // ---------------------------------------------------------------- launcher pods

  predicate IsLauncher(pod: Pod, vmi: Vmi) {
    && !pod.finished
    && APP_LABEL in pod.labels && pod.labels[APP_LABEL] == LAUNCHER
    && exists k :: 0 <= k < |pod.owners| && pod.owners[k].uid == vmi.uid
  }

  /** The unfinished launcher pods of the instance, in order. */
  function Launchers(pods: seq<Pod>, vmi: Vmi): seq<Pod> {
    if pods == [] then []
    else (if IsLauncher(pods[0], vmi) then [pods[0]] else []) + Launchers(pods[1..], vmi)
  }

  method UnfinishedVMIPods(pods: seq<Pod>, vmi: Vmi) returns (launchers: seq<Pod>)
    ensures launchers == Launchers(pods, vmi)
  {
    launchers := [];
    for k := 0 to |pods|
      invariant launchers + Launchers(pods[k..], vmi) == Launchers(pods, vmi)
    {
      var pod := pods[k];
      if pod.finished {
        continue;
      }
      if !(APP_LABEL in pod.labels && pod.labels[APP_LABEL] == LAUNCHER) {
        continue;
      }
      var found := false;
      for j := 0 to |pod.owners|
        invariant found <==> exists i :: 0 <= i < j && pod.owners[i].uid == vmi.uid
      {
        if pod.owners[j].uid == vmi.uid {
          found := true;
        }
      }
      if !found {
        continue;
      }
      launchers := launchers + [pod];
    }
    assert pods[|pods|..] == [];
  }

  predicate OnNode(pod: Pod, vmi: Vmi) {
    vmi.node == "" || vmi.node == pod.node
  }

  /** The newest pod on the instance's node, the first one among equals. */
  function SourceOf(pods: seq<Pod>, vmi: Vmi): Option<Pod> {
    if pods == [] then None
    else
      var last := pods[|pods| - 1];
      var best := SourceOf(pods[..|pods| - 1], vmi);
      if OnNode(last, vmi) && (best.None? || best.value.created < last.created) then Some(last) else best
  }

  method GetSourcePod(pods: seq<Pod>, vmi: Vmi) returns (source: Option<Pod>)
    ensures source == SourceOf(pods, vmi)
  {
    source := None;
    for k := 0 to |pods|
      invariant source == SourceOf(pods[..k], vmi)
    {
      assert pods[..k + 1][..k] == pods[..k];
      if vmi.node != "" && vmi.node != pods[k].node {
        continue;
      }
      if source.None? || source.value.created < pods[k].created {
        source := Some(pods[k]);
      }
    }
    assert pods[..|pods|] == pods;
  }

  /** Pod k is on the instance's node, none there is newer, and none before it as new. */
  predicate FirstNewest(pods: seq<Pod>, vmi: Vmi, k: nat) {
    && k < |pods| && OnNode(pods[k], vmi)
    && forall j | 0 <= j < |pods| && OnNode(pods[j], vmi) ::
         pods[j].created <= pods[k].created && (j < k ==> pods[j].created < pods[k].created)
  }

  /** The source pod, where there is one, and its position. */
  lemma {:induction false} SourceIsNewest(pods: seq<Pod>, vmi: Vmi) returns (k: nat)
    ensures SourceOf(pods, vmi).None? <==> forall j | 0 <= j < |pods| :: !OnNode(pods[j], vmi)
    ensures SourceOf(pods, vmi).Some? ==> FirstNewest(pods, vmi, k) && pods[k] == SourceOf(pods, vmi).value
  {
    k := 0;
    if pods != [] {
      var last := |pods| - 1;
      var front := pods[..last];
      k := SourceIsNewest(front, vmi);
      assert forall j | 0 <= j < last :: front[j] == pods[j];
      if SourceOf(front, vmi).None? || SourceOf(pods, vmi) != SourceOf(front, vmi) {
        k := last;
      }
    }
  }

  predicate IsTarget(pod: Pod, migration: Option<Migration>) {
    && migration.Some?
    && MIGRATION_JOB_LABEL in pod.labels && pod.labels[MIGRATION_JOB_LABEL] == migration.value.uid
    && MIGRATION_JOB_NAME in pod.annotations && pod.annotations[MIGRATION_JOB_NAME] == migration.value.name
  }

  /** The first pod the migration created. */
  function TargetOf(pods: seq<Pod>, migration: Option<Migration>): Option<Pod> {
    if pods == [] then None
    else if IsTarget(pods[0], migration) then Some(pods[0])
    else TargetOf(pods[1..], migration)
  }

  method GetTargetPod(pods: seq<Pod>, migration: Option<Migration>) returns (target: Option<Pod>)
    ensures target == TargetOf(pods, migration)
  {
    for k := 0 to |pods|
      invariant TargetOf(pods, migration) == TargetOf(pods[k..], migration)
    {
      if IsTarget(pods[k], migration) {
        return Some(pods[k]);
      }
    }
    return None;
  }

  lemma {:induction false} TargetIsListed(pods: seq<Pod>, migration: Option<Migration>)
    ensures TargetOf(pods, migration).Some? ==>
              TargetOf(pods, migration).value in pods && IsTarget(TargetOf(pods, migration).value, migration)
    ensures TargetOf(pods, migration).None? ==> forall pod | pod in pods :: !IsTarget(pod, migration)
  {
    if pods != [] {
      TargetIsListed(pods[1..], migration);
      assert pods == [pods[0]] + pods[1..];
    }
  }

  /** The newest migration of the instance that did not fail, the first one among equals. */
  function LatestOf(migrations: seq<Migration>, vmi: Vmi): Option<Migration> {
    if migrations == [] then None
    else
      var last := migrations[|migrations| - 1];
      var best := LatestOf(migrations[..|migrations| - 1], vmi);
      var time := if best.None? then 0 else best.value.created;
      if !last.failed && last.vmiName == vmi.name && last.created > time then Some(last) else best
  }

  method GetLatestVmim(migrations: seq<Migration>, vmi: Vmi) returns (latest: Option<Migration>)
    ensures latest == LatestOf(migrations, vmi)
  {
    latest := None;
    var time := 0;
    for k := 0 to |migrations|
      invariant latest == LatestOf(migrations[..k], vmi)
      invariant time == if latest.None? then 0 else latest.value.created
    {
      assert migrations[..k + 1][..k] == migrations[..k];
      var migration := migrations[k];
      if !migration.failed && migration.vmiName == vmi.name {
        if migration.created > time {
          time := migration.created;
          latest := Some(migration);
        }
      }
    }
    assert migrations[..|migrations|] == migrations;
  }

  lemma {:induction false} LatestIsNewest(migrations: seq<Migration>, vmi: Vmi)
    ensures var latest := LatestOf(migrations, vmi);
            && (latest.Some? ==> latest.value in migrations && !latest.value.failed && latest.value.vmiName == vmi.name)
            && forall m | m in migrations && !m.failed && m.vmiName == vmi.name && m.created > 0 ::
                 latest.Some? && m.created <= latest.value.created
  {
    if migrations != [] {
      var last := |migrations| - 1;
      LatestIsNewest(migrations[..last], vmi);
      assert migrations == migrations[..last] + [migrations[last]];
    }
  }

  // ---------------------------------------------------------------- the charge of one pod

  /** What the calculator answers for a pod: a list or an error, and whether it is responsible. */
  datatype Answer = Answer(usage: Option<ResourceList>, responsible: bool)

  /** The pod is the calculator's business: its first owner is an instance, and it is neither
      finished nor stuck. */
  predicate IsCounted(pod: Pod) {
    |pod.owners| > 0 && pod.owners[0].kind == VMI_KIND && !pod.finished && !pod.expired
  }

  function ChargeFor(config: Config, pod: Pod, vmi: Vmi, source: Pod, target: Option<Pod>): ResourceList {
    if pod.name == source.name then UsageByConfig(config, pod, vmi, true)
    else if target.Some? && pod.name == target.value.name
    then SubtractNonNegative(UsageByConfig(config, pod, vmi, false), UsageByConfig(config, pod, vmi, true))
    else map[]
  }

  /** `pods` and `migrations` are those of the pod's namespace, `vmis` its instances by name;
      `migrations` is None when they cannot be listed. */
  function AnswerFor(config: Config, pod: Pod, pods: seq<Pod>, vmis: map<string, Vmi>,
                     migrations: Option<seq<Migration>>): Answer
    requires HasSource(pod, pods, vmis)
  {
    if !IsCounted(pod) || pod.owners[0].name !in vmis then Answer(Some(map[]), false)
    else
      var vmi := vmis[pod.owners[0].name];
      var launchers := Launchers(pods, vmi);
      if !Named(launchers, pod.name) || migrations.None? then Answer(None, true)
      else
        var source := SourceOf(launchers, vmi).value;
        Answer(Some(ChargeFor(config, pod, vmi, source, TargetOf(launchers, LatestOf(migrations.value, vmi)))), true)
  }

  predicate Named(pods: seq<Pod>, name: string) {
    exists k :: 0 <= k < |pods| && pods[k].name == name
  }

  /** A launcher pod of an instance has its source pod listed. */
  predicate HasSource(pod: Pod, pods: seq<Pod>, vmis: map<string, Vmi>) {
    IsCounted(pod) && pod.owners[0].name in vmis ==>
      var vmi := vmis[pod.owners[0].name];
      Named(Launchers(pods, vmi), pod.name) ==> SourceOf(Launchers(pods, vmi), vmi).Some?
  }

  method PodUsageFunc(config: Config, pod: Pod, pods: seq<Pod>, vmis: map<string, Vmi>,
                      migrations: Option<seq<Migration>>)
    returns (answer: Answer)
    requires HasSource(pod, pods, vmis)
    ensures answer == AnswerFor(config, pod, pods, vmis, migrations)
  {
    if |pod.owners| == 0 || pod.owners[0].kind != VMI_KIND || pod.finished || pod.expired {
      return Answer(Some(map[]), false);
    }
    if pod.owners[0].name !in vmis {
      return Answer(Some(map[]), false);
    }
    var vmi := vmis[pod.owners[0].name];
    var launchers := UnfinishedVMIPods(pods, vmi);
    var listed := PodExists(launchers, pod);
    if !listed || migrations.None? {
      return Answer(None, true);
    }
    var migration := GetLatestVmim(migrations.value, vmi);
    var source := GetSourcePod(launchers, vmi);
    var target := GetTargetPod(launchers, migration);
    var sourceResources := UsageByConfig(config, pod, vmi, true);
    if pod.name == source.value.name {
      return Answer(Some(sourceResources), true);
    }
    if target.Some? && pod.name == target.value.name {
      var targetResources := UsageByConfig(config, pod, vmi, false);
      return Answer(Some(SubtractNonNegative(targetResources, sourceResources)), true);
    }
    return Answer(Some(map[]), true);
  }

  method PodExists(pods: seq<Pod>, pod: Pod) returns (found: bool)
    ensures found == Named(pods, pod.name)
  {
    for k := 0 to |pods|
      invariant forall j | 0 <= j < k :: pods[j].name != pod.name
    {
      if pods[k].name == pod.name {
        return true;
      }
    }
    return false;
  }

  // ---------------------------------------------------------------- what a migration is charged

  /** What a pod ends up charged by the calculator. */
  function Charged(config: Config, pod: Pod, pods: seq<Pod>, vmis: map<string, Vmi>,
                   migrations: seq<Migration>): ResourceList {
    if !HasSource(pod, pods, vmis) then map[]
    else match AnswerFor(config, pod, pods, vmis, Some(migrations)).usage
         case None => map[]
         case Some(usage) => usage
  }

  function ChargeSum(config: Config, group: seq<Pod>, pods: seq<Pod>, vmis: map<string, Vmi>,
                     migrations: seq<Migration>, r: string): int {
    if group == [] then 0
    else Get(Charged(config, group[0], pods, vmis, migrations), r)
           + ChargeSum(config, group[1..], pods, vmis, migrations, r)
  }

  predicate DistinctNames(pods: seq<Pod>) {
    forall j, k | 0 <= j < k < |pods| :: pods[j].name != pods[k].name
  }

  /** The launcher pods of an instance, all of them live and named apart, the source among them. */
  predicate LiveLaunchers(pods: seq<Pod>, vmis: map<string, Vmi>, name: string) {
    && name in vmis
    && var launchers := Launchers(pods, vmis[name]);
       && SourceOf(launchers, vmis[name]).Some?
       && DistinctNames(launchers)
       && forall k | 0 <= k < |launchers| :: IsCounted(launchers[k]) && launchers[k].owners[0].name == name
  }

  /** Each launcher is charged by its role. */
  lemma ChargedByRole(config: Config, pods: seq<Pod>, vmis: map<string, Vmi>, name: string,
                      migrations: seq<Migration>, pod: Pod)
    requires LiveLaunchers(pods, vmis, name) && pod in Launchers(pods, vmis[name])
    ensures var vmi := vmis[name];
            var launchers := Launchers(pods, vmi);
            Charged(config, pod, pods, vmis, migrations)
            == ChargeFor(config, pod, vmi, SourceOf(launchers, vmi).value,
                         TargetOf(launchers, LatestOf(migrations, vmi)))
  {
    var launchers := Launchers(pods, vmis[name]);
    var k :| 0 <= k < |launchers| && launchers[k] == pod;
    assert Named(launchers, pod.name);
  }

  /** What the role of a pod contributes if it is among `group`. */
  function Part(config: Config, group: seq<Pod>, pod: Pod, vmi: Vmi, source: Pod, target: Option<Pod>, r: string): int {
    if Named(group, pod.name) then Get(ChargeFor(config, pod, vmi, source, target), r) else 0
  }

  /** Among pods named apart a role is filled by the first pod or by a later one. */
  lemma PartOneMore(config: Config, pods: seq<Pod>, n: nat, pod: Pod, vmi: Vmi, source: Pod, target: Option<Pod>,
                    r: string)
    requires DistinctNames(pods) && n < |pods| && pod in pods
    ensures Part(config, pods[n..], pod, vmi, source, target, r)
         == (if pods[n].name == pod.name then Get(ChargeFor(config, pods[n], vmi, source, target), r) else 0)
          + Part(config, pods[n + 1..], pod, vmi, source, target, r)
  {
    NamedFirst(pods, n, pod);
  }

  /** Summing over any part of the launchers, only the source's and the target's charge remain. */
  lemma {:induction false} OnlyTwoAreCharged(config: Config, pods: seq<Pod>, vmis: map<string, Vmi>, name: string,
                                             migrations: seq<Migration>, r: string, n: nat)
    requires LiveLaunchers(pods, vmis, name) && n <= |Launchers(pods, vmis[name])|
    ensures var vmi := vmis[name];
            var launchers := Launchers(pods, vmi);
            var source := SourceOf(launchers, vmi).value;
            var target := TargetOf(launchers, LatestOf(migrations, vmi));
            ChargeSum(config, launchers[n..], pods, vmis, migrations, r)
            == Part(config, launchers[n..], source, vmi, source, target, r)
             + if target.Some? && target.value.name != source.name
               then Part(config, launchers[n..], target.value, vmi, source, target, r)
               else 0
    decreases |Launchers(pods, vmis[name])| - n
  {
    var vmi := vmis[name];
    var launchers := Launchers(pods, vmi);
    if n < |launchers| {
      var pod := launchers[n];
      OnlyTwoAreCharged(config, pods, vmis, name, migrations, r, n + 1);
      assert launchers[n..][1..] == launchers[n + 1..];
      ChargedByRole(config, pods, vmis, name, migrations, pod);
      var k := SourceIsNewest(launchers, vmi);
      var source := SourceOf(launchers, vmi).value;
      var migration := LatestOf(migrations, vmi);
      var target := TargetOf(launchers, migration);
      PartOneMore(config, launchers, n, source, vmi, source, target, r);
      if target.Some? {
        TargetIsListed(launchers, migration);
        PartOneMore(config, launchers, n, target.value, vmi, source, target, r);
      }
    }
  }

  /** Among pods named apart a listed pod is named in a suffix either first or later. */
  lemma NamedFirst(pods: seq<Pod>, n: nat, pod: Pod)
    requires DistinctNames(pods) && n < |pods|
    ensures Named(pods[n..], pod.name) <==> pods[n].name == pod.name || Named(pods[n + 1..], pod.name)
    ensures !(pods[n].name == pod.name && Named(pods[n + 1..], pod.name))
    ensures pod in pods && pods[n].name == pod.name ==> pods[n] == pod
  {
    if Named(pods[n..], pod.name) && pods[n].name != pod.name {
      var k :| 0 <= k < |pods[n..]| && pods[n..][k].name == pod.name;
      assert pods[n + 1..][k - 1].name == pod.name;
    }
    if pods[n].name == pod.name {
      assert pods[n..][0].name == pod.name;
    }
    if Named(pods[n + 1..], pod.name) {
      var k :| 0 <= k < |pods[n + 1..]| && pods[n + 1..][k].name == pod.name;
      assert pods[n..][k + 1].name == pod.name;
    }
  }

  lemma LauncherKeys(vmi: Vmi)
    ensures LauncherUsage(vmi, true).Keys == LauncherUsage(vmi, false).Keys
  {
    UsageOfInstance(vmi, true);
    UsageOfInstance(vmi, false);
  }

  lemma DedicatedKeys(a: ResourceList, b: ResourceList)
    requires a.Keys == b.Keys
    ensures Dedicated(a).Keys == Dedicated(b).Keys
  {
  }

  /** With the same resources named on both sides the difference is the excess. */
  lemma ExcessOver(wanted: ResourceList, current: ResourceList, r: string)
    requires wanted.Keys == current.Keys
    ensures Get(current, r) + Get(SubtractNonNegative(wanted, current), r) == Max(Get(current, r), Get(wanted, r))
  {
  }

  /** Source and target usage name the same resources, so the target is charged the excess. */
  lemma TargetPaysTheExcess(config: Config, vmi: Vmi, source: Pod, target: Pod, r: string)
    requires config.VirtualResources? || config.DedicatedVirtualResources?
    ensures var current := Get(UsageByConfig(config, source, vmi, true), r);
            var wanted := Get(UsageByConfig(config, target, vmi, false), r);
            current + Get(SubtractNonNegative(UsageByConfig(config, target, vmi, false),
                                              UsageByConfig(config, target, vmi, true)), r)
            == Max(current, wanted)
  {
    LauncherKeys(vmi);
    DedicatedKeys(LauncherUsage(vmi, true), LauncherUsage(vmi, false));
    ExcessOver(UsageByConfig(config, target, vmi, false), UsageByConfig(config, target, vmi, true), r);
  }

  /** What the launchers are charged: the source's charge and the target's. */
  lemma SourceAndTarget(config: Config, pods: seq<Pod>, vmis: map<string, Vmi>, name: string,
                        migrations: seq<Migration>, source: Pod, target: Option<Pod>, r: string)
    requires LiveLaunchers(pods, vmis, name)
    requires source == SourceOf(Launchers(pods, vmis[name]), vmis[name]).value
    requires target == TargetOf(Launchers(pods, vmis[name]), LatestOf(migrations, vmis[name]))
    ensures ChargeSum(config, Launchers(pods, vmis[name]), pods, vmis, migrations, r)
         == Get(ChargeFor(config, source, vmis[name], source, target), r)
          + if target.Some? && target.value.name != source.name
            then Get(ChargeFor(config, target.value, vmis[name], source, target), r)
            else 0
  {
    var launchers := Launchers(pods, vmis[name]);
    OnlyTwoAreCharged(config, pods, vmis, name, migrations, r, 0);
    assert launchers[0..] == launchers;
    var k := SourceIsNewest(launchers, vmis[name]);
    assert launchers[k].name == source.name;
    TargetIsListed(launchers, LatestOf(migrations, vmis[name]));
    assert target.Some? ==> Named(launchers, target.value.name);
  }

  /** Counting by virtual resources, all launcher pods of an instance together are charged the
      larger of what the instance uses now and what the migration target will use, resource by
      resource; without a target pod of its own, just what it uses now. Orphaned launcher pods
      are charged nothing. */
  lemma MigrationCharge(config: Config, pods: seq<Pod>, vmis: map<string, Vmi>, name: string,
                        migrations: seq<Migration>, r: string)
    requires LiveLaunchers(pods, vmis, name)
    requires config.VirtualResources? || config.DedicatedVirtualResources?
    ensures var vmi := vmis[name];
            var launchers := Launchers(pods, vmi);
            var source := SourceOf(launchers, vmi).value;
            var target := TargetOf(launchers, LatestOf(migrations, vmi));
            var current := Get(UsageByConfig(config, source, vmi, true), r);
            ChargeSum(config, launchers, pods, vmis, migrations, r)
            == if target.Some? && target.value.name != source.name
               then Max(current, Get(UsageByConfig(config, target.value, vmi, false), r))
               else current
  {
    var launchers := Launchers(pods, vmis[name]);
    var source := SourceOf(launchers, vmis[name]).value;
    var target := TargetOf(launchers, LatestOf(migrations, vmis[name]));
    SourceAndTarget(config, pods, vmis, name, migrations, source, target, r);
    if target.Some? {
      TargetPaysTheExcess(config, vmis[name], source, target.value, r);
    }
  }

  /** Counting by pod usage a migration is free: the target's own usage cancels out. */
  lemma MigrationChargeByPods(config: Config, pods: seq<Pod>, vmis: map<string, Vmi>, name: string,
                              migrations: seq<Migration>, r: string)
    requires LiveLaunchers(pods, vmis, name)
    requires config.VmiPodUsage? || config.Unknown?
    ensures var launchers := Launchers(pods, vmis[name]);
            ChargeSum(config, launchers, pods, vmis, migrations, r)
              == Get(SourceOf(launchers, vmis[name]).value.podUsage, r)
  {
    var launchers := Launchers(pods, vmis[name]);
    var source := SourceOf(launchers, vmis[name]).value;
    SourceAndTarget(config, pods, vmis, name, migrations, source,
                    TargetOf(launchers, LatestOf(migrations, vmis[name])), r);
  }
}
