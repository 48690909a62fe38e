/**
 The migration plan: the compatible VMs, each with its numbered steps and cost, in a stable order by
 priority and name.
*/
module MigrationPlan {
  import opened Prelude
  import opened Inventory
  import Compatibility
  import opened MappingEngine

  datatype Action = VerifyFlavor | VerifyNetwork | CreateNetwork | CreateVolume | ImportImage | CreateServer | Cleanup

  datatype Step = Step(order: nat, action: Action, minutes: nat)

  datatype PlanVm = PlanVm(
    vmId: string, name: string, priority: int, flavorId: Option<string>, networkIds: seq<string>,
    volumeTypes: seq<string>, downtime: nat, steps: seq<Step>, minutes: nat)

  datatype Plan = Plan(vms: seq<PlanVm>, totalVms: nat, totalMinutes: nat)

  /** A VM with its assessment and, when it was mapped, its mapping. */
  datatype Item = Item(vm: VM, compatible: bool, mapping: Option<VmMapping>)

  /** The schema accepts priorities 1 to 10 only. */
  datatype Error = PriorityOutOfRange

  // ---------------------------------------------------------------------
  // Steps
  // ---------------------------------------------------------------------

  datatype Work = Work(action: Action, minutes: nat)

  function NetworkWork(m: NetworkMapping): Work {
    if m.matchType.NotFound? then Work(CreateNetwork, 3) else Work(VerifyNetwork, 1)
  }

  function DiskWork(m: DiskMapping): Work {
    Work(CreateVolume, if m.bootable then 2 else 1)
  }

  function NetworkWorks(ms: seq<NetworkMapping>): seq<Work> {
    seq(|ms|, i requires 0 <= i < |ms| => NetworkWork(ms[i]))
  }

  function DiskWorks(ms: seq<DiskMapping>): seq<Work> {
    seq(|ms|, i requires 0 <= i < |ms| => DiskWork(ms[i]))
  }

  const FIXED := [Work(ImportImage, 15), Work(CreateServer, 5), Work(Cleanup, 1)]

  function FlavorWork(m: VmMapping): seq<Work> {
    if m.flavor.Some? then [Work(VerifyFlavor, 1)] else []
  }

  function MappedWork(m: VmMapping): seq<Work> {
    FlavorWork(m) + NetworkWorks(m.networks) + DiskWorks(m.disks)
  }

  /** What has to be done for a VM, in order. */
  function WorkOf(mapping: Option<VmMapping>): seq<Work> {
    (if mapping.None? then [] else MappedWork(mapping.value)) + FIXED
  }

  /** Steps carry their position, counted from one. */
  function Numbered(work: seq<Work>): seq<Step> {
    seq(|work|, i requires 0 <= i < |work| => Step(i + 1, work[i].action, work[i].minutes))
  }

  function Minutes(steps: seq<Step>): nat {
    if steps == [] then 0 else Minutes(steps[..|steps| - 1]) + steps[|steps| - 1].minutes
  }

  function WorkMinutes(work: seq<Work>): nat {
    if work == [] then 0 else WorkMinutes(work[..|work| - 1]) + work[|work| - 1].minutes
  }

  lemma {:induction false} NumberedMinutes(work: seq<Work>)
    ensures Minutes(Numbered(work)) == WorkMinutes(work)
  {
    if work != [] {
      var n := |work| - 1;
      NumberedMinutes(work[..n]);
      assert Numbered(work)[..n] == Numbered(work[..n]);
    }
  }

  lemma {:induction false} WorkConcat(a: seq<Work>, b: seq<Work>)
    ensures WorkMinutes(a + b) == WorkMinutes(a) + WorkMinutes(b)
  {
    if b == [] {
      assert a + b == a;
    } else {
      var n := |b| - 1;
      WorkConcat(a, b[..n]);
      ConcatFront(a, b);
    }
  }

  function CountUnmatched(ms: seq<NetworkMapping>): nat {
    if ms == [] then 0
    else CountUnmatched(ms[..|ms| - 1]) + if ms[|ms| - 1].matchType.NotFound? then 1 else 0
  }

  lemma {:induction false} NetworkMinutes(ms: seq<NetworkMapping>)
    ensures WorkMinutes(NetworkWorks(ms)) == (|ms| - CountUnmatched(ms)) + 3 * CountUnmatched(ms)
    ensures CountUnmatched(ms) <= |ms|
  {
    if ms != [] {
      var n := |ms| - 1;
      NetworkMinutes(ms[..n]);
      assert NetworkWorks(ms)[..n] == NetworkWorks(ms[..n]);
    }
  }

  lemma {:induction false} DiskMinutes(disks: seq<Disk>, n: nat)
    requires n <= |disks|
    ensures WorkMinutes(DiskWorks(DisksMapped(disks))[..n]) == n + if n > 0 then 1 else 0
  {
    if n > 0 {
      DiskMinutes(disks, n - 1);
      var work := DiskWorks(DisksMapped(disks));
      PrefixOfPrefix(work, n, n - 1);
    }
  }

  lemma FixedMinutes()
    ensures WorkMinutes(FIXED) == 21
  {
    assert FIXED[..2][..1] == FIXED[..1] && FIXED[..1][..0] == [];
    assert WorkMinutes(FIXED[..1]) == 15;
    assert WorkMinutes(FIXED[..2]) == 20;
  }

  lemma WorkMinutesOf(m: VmMapping)
    ensures WorkMinutes(WorkOf(Some(m))) ==
            (if m.flavor.Some? then 1 else 0) + WorkMinutes(NetworkWorks(m.networks))
            + WorkMinutes(DiskWorks(m.disks)) + 21
  {
    var flavor := FlavorWork(m);
    WorkConcat(flavor + NetworkWorks(m.networks) + DiskWorks(m.disks), FIXED);
    WorkConcat(flavor + NetworkWorks(m.networks), DiskWorks(m.disks));
    WorkConcat(flavor, NetworkWorks(m.networks));
    FixedMinutes();
    assert [Work(VerifyFlavor, 1)][..0] == [];
  }

  /** A mapped VM costs 21 minutes, one for a flavor, one per matched and three per unmatched network, one per
      disk and one more for the boot disk. */
  lemma CostFormula(
    sqrt: real -> real, lower: Lower, vm: VM, flavors: seq<Flavor>, nets: seq<OsNetwork>, m: VmMapping)
    requires RightMapping(sqrt, lower, vm, flavors, nets, m)
    ensures var unmatched := CountUnmatched(m.networks);
            Minutes(Numbered(WorkOf(Some(m)))) ==
            21 + (if m.flavor.Some? then 1 else 0) + (|NicsOf(vm)| - unmatched) + 3 * unmatched
            + |DisksOf(vm)| + (if DisksOf(vm) != [] then 1 else 0)
  {
    NumberedMinutes(WorkOf(Some(m)));
    WorkMinutesOf(m);
    NetworkMinutes(m.networks);
    AllDiskMinutes(DisksOf(vm));
  }

  lemma AllDiskMinutes(disks: seq<Disk>)
    ensures WorkMinutes(DiskWorks(DisksMapped(disks))) == |disks| + if disks != [] then 1 else 0
  {
    DiskMinutes(disks, |disks|);
    assert DiskWorks(DisksMapped(disks))[..|disks|] == DiskWorks(DisksMapped(disks));
  }

  lemma NumberedNext(work: seq<Work>, w: Work)
    ensures Numbered(work + [w]) == Numbered(work) + [Step(|work| + 1, w.action, w.minutes)]
  {
  }

  /** The network loop of `_build_steps`. */
  method AddNetworkSteps(before: seq<Step>, first: nat, networks: seq<NetworkMapping>, ghost work: seq<Work>)
    returns (steps: seq<Step>, order: nat)
    requires before == Numbered(work) && first == |before| + 1
    ensures steps == Numbered(work + NetworkWorks(networks)) && order == |steps| + 1
  {
    steps, order := before, first;
    var i := 0;
    assert work + NetworkWorks(networks[..0]) == work;
    while i < |networks|
      invariant 0 <= i <= |networks| && order == |steps| + 1
      invariant steps == Numbered(work + NetworkWorks(networks[..i]))
    {
      var nm := networks[i];
      NumberedNext(work + NetworkWorks(networks[..i]), NetworkWork(nm));
      assert work + NetworkWorks(networks[..i + 1]) == work + NetworkWorks(networks[..i]) + [NetworkWork(nm)];
      if !nm.matchType.NotFound? {
        steps := steps + [Step(order, VerifyNetwork, 1)];
      } else {
        steps := steps + [Step(order, CreateNetwork, 3)];
      }
      order := order + 1;
      i := i + 1;
    }
    WholePrefix(networks);
  }

  /** The disk loop of `_build_steps`. */
  method AddDiskSteps(before: seq<Step>, first: nat, disks: seq<DiskMapping>, ghost work: seq<Work>)
    returns (steps: seq<Step>, order: nat)
    requires before == Numbered(work) && first == |before| + 1
    ensures steps == Numbered(work + DiskWorks(disks)) && order == |steps| + 1
  {
    steps, order := before, first;
    var i := 0;
    assert work + DiskWorks(disks[..0]) == work;
    while i < |disks|
      invariant 0 <= i <= |disks| && order == |steps| + 1
      invariant steps == Numbered(work + DiskWorks(disks[..i]))
    {
      NumberedNext(work + DiskWorks(disks[..i]), DiskWork(disks[i]));
      assert work + DiskWorks(disks[..i + 1]) == work + DiskWorks(disks[..i]) + [DiskWork(disks[i])];
      steps := steps + [Step(order, CreateVolume, if disks[i].bootable then 2 else 1)];
      order := order + 1;
      i := i + 1;
    }
    WholePrefix(disks);
  }

  /** `_build_steps`: numbered from one without a gap. */
  method BuildSteps(mapping: Option<VmMapping>) returns (steps: seq<Step>)
    ensures steps == Numbered(WorkOf(mapping))
    ensures NumberedFromOne(steps)
  {
    steps := [];
    var order := 1;
    if mapping.Some? {
      steps, order := AddMappedSteps(mapping.value);
    }
    ghost var work := if mapping.Some? then MappedWork(mapping.value) else [];
    NumberedFixed(work);
    assert steps == Numbered(work) && order == |work| + 1;
    steps := steps + [Step(order, ImportImage, 15), Step(order + 1, CreateServer, 5), Step(order + 2, Cleanup, 1)];
  }

  /** The steps of `_build_steps` that need a mapping. */
  method AddMappedSteps(m: VmMapping) returns (steps: seq<Step>, order: nat)
    ensures steps == Numbered(MappedWork(m)) && order == |steps| + 1
  {
    steps, order := [], 1;
    if m.flavor.Some? {
      steps := [Step(order, VerifyFlavor, 1)];
      order := order + 1;
    }
    steps, order := AddNetworkSteps(steps, order, m.networks, FlavorWork(m));
    steps, order := AddDiskSteps(steps, order, m.disks, FlavorWork(m) + NetworkWorks(m.networks));
  }

  lemma ConcatAt<T>(a: seq<T>, b: seq<T>, j: nat)
    requires j < |a| + |b|
    ensures (a + b)[j] == if j < |a| then a[j] else b[j - |a|]
  {
  }

  lemma WorkAt(m: VmMapping, j: nat)
    requires j < |WorkOf(Some(m))|
    ensures var f, n, d := |FlavorWork(m)|, |m.networks|, |m.disks|;
            && |WorkOf(Some(m))| == f + n + d + 3
            && WorkOf(Some(m))[j] ==
               if j < f then Work(VerifyFlavor, 1) else if j < f + n then NetworkWork(m.networks[j - f])
               else if j < f + n + d then DiskWork(m.disks[j - f - n]) else FIXED[j - f - n - d]
  {
    var flavor, networks, disks := FlavorWork(m), NetworkWorks(m.networks), DiskWorks(m.disks);
    ConcatAt(flavor + networks + disks, FIXED, j);
    if j < |flavor + networks + disks| {
      ConcatAt(flavor + networks, disks, j);
      if j < |flavor + networks| {
        ConcatAt(flavor, networks, j);
      }
    }
  }

  /** The step that a mapped VM has at position `j`: the flavor, the networks, the disks, then export, server and
      cleanup. */
  ghost predicate StepInOrder(m: VmMapping, j: nat, step: Step) {
    var f, n, d := if m.flavor.Some? then 1 else 0, |m.networks|, |m.disks|;
    && step.order == j + 1
    && if j < f then step.action == VerifyFlavor && step.minutes == 1
       else if j < f + n then
         if m.networks[j - f].matchType.NotFound? then step.action == CreateNetwork && step.minutes == 3
         else step.action == VerifyNetwork && step.minutes == 1
       else if j < f + n + d then
         step.action == CreateVolume && step.minutes == if m.disks[j - f - n].bootable then 2 else 1
       else if j == f + n + d then step.action == ImportImage && step.minutes == 15
       else if j == f + n + d + 1 then step.action == CreateServer && step.minutes == 5
       else j == f + n + d + 2 && step.action == Cleanup && step.minutes == 1
  }

  lemma StepsInOrder(m: VmMapping)
    ensures var steps := Numbered(WorkOf(Some(m)));
            && |steps| == (if m.flavor.Some? then 1 else 0) + |m.networks| + |m.disks| + 3
            && forall j :: 0 <= j < |steps| ==> StepInOrder(m, j, steps[j])
  {
    WorkAt(m, 0);
    forall j | 0 <= j < |WorkOf(Some(m))|
      ensures StepInOrder(m, j, Numbered(WorkOf(Some(m)))[j])
    {
      StepAt(m, j);
    }
  }

  lemma StepAt(m: VmMapping, j: nat)
    requires j < |WorkOf(Some(m))|
    ensures StepInOrder(m, j, Numbered(WorkOf(Some(m)))[j])
  {
    WorkAt(m, j);
    NumberedAt(WorkOf(Some(m)), j);
    StepFromWork(m, j, WorkOf(Some(m))[j]);
  }

  lemma StepFromWork(m: VmMapping, j: nat, w: Work)
    requires var f, n, d := |FlavorWork(m)|, |m.networks|, |m.disks|;
             && j < f + n + d + 3
             && w == if j < f then Work(VerifyFlavor, 1) else if j < f + n then NetworkWork(m.networks[j - f])
                     else if j < f + n + d then DiskWork(m.disks[j - f - n]) else FIXED[j - f - n - d]
    ensures StepInOrder(m, j, Step(j + 1, w.action, w.minutes))
  {
  }

  lemma NumberedAt(work: seq<Work>, j: nat)
    requires j < |work|
    ensures Numbered(work)[j] == Step(j + 1, work[j].action, work[j].minutes)
  {
  }

  lemma StepsWithoutMapping()
    ensures Numbered(WorkOf(None)) == [Step(1, ImportImage, 15), Step(2, CreateServer, 5), Step(3, Cleanup, 1)]
  {
  }

  lemma NumberedFixed(work: seq<Work>)
    ensures Numbered(work + FIXED) ==
            Numbered(work)
            + [Step(|work| + 1, ImportImage, 15), Step(|work| + 2, CreateServer, 5), Step(|work| + 3, Cleanup, 1)]
  {
  }

  // ---------------------------------------------------------------------
  // Downtime
  // ---------------------------------------------------------------------

  function Downtime(lower: Lower, vm: VM): nat {
    var power := lower(vm.powerState);
    if power == "poweredoff" then 0
    else if power == "suspended" then 5
    else if TotalDisk(DisksOf(vm)) > 500 then 30
    else if TotalDisk(DisksOf(vm)) > 100 then 15 else 10
  }

  /** The thresholds, case by case. */
  lemma DowntimeMeans(lower: Lower, vm: VM)
    ensures var gb, power, minutes := TotalDisk(DisksOf(vm)), lower(vm.powerState), Downtime(lower, vm);
            && (minutes == 0 <==> power == "poweredoff")
            && (minutes == 5 <==> power == "suspended")
            && (minutes == 10 <==> power != "poweredoff" && power != "suspended" && gb <= 100)
            && (minutes == 15 <==> power != "poweredoff" && power != "suspended" && 100 < gb <= 500)
            && (minutes == 30 <==> power != "poweredoff" && power != "suspended" && gb > 500)
  {
  }

  /** No planned VM is suspended, so the five-minute branch is never taken for one. */
  lemma PlannedDowntime(lower: Lower, vm: VM)
    requires Compatibility.Assess(lower, vm).compatible
    ensures !Compatibility.Suspended(lower, vm) && vm.hardware.Some?
    ensures Downtime(lower, vm) in {0, 10, 15, 30}
  {
    Compatibility.ScoreFormula(lower, vm);
  }

  // ---------------------------------------------------------------------
  // The stable order by priority and name
  // ---------------------------------------------------------------------

  /** Python's string order: by code point, a prefix first. */
  predicate NameLeq(a: string, b: string) {
    a == [] || (b != [] && (a[0] < b[0] || (a[0] == b[0] && NameLeq(a[1..], b[1..]))))
  }

  predicate Leq(a: PlanVm, b: PlanVm) {
    a.priority < b.priority || (a.priority == b.priority && NameLeq(a.name, b.name))
  }

  lemma {:induction false} NameTotal(a: string, b: string)
    ensures NameLeq(a, b) || NameLeq(b, a)
    ensures NameLeq(a, b) && NameLeq(b, a) ==> a == b
  {
    if a != [] && b != [] && a[0] == b[0] {
      NameTotal(a[1..], b[1..]);
      assert a == [a[0]] + a[1..] && b == [b[0]] + b[1..];
    }
  }

  lemma {:induction false} NameTransitive(a: string, b: string, c: string)
    requires NameLeq(a, b) && NameLeq(b, c)
    ensures NameLeq(a, c)
  {
    if a != [] && a[0] == b[0] && b[0] == c[0] {
      NameTransitive(a[1..], b[1..], c[1..]);
    }
  }

  lemma LeqTransitive(a: PlanVm, b: PlanVm, c: PlanVm)
    requires Leq(a, b) && Leq(b, c)
    ensures Leq(a, c)
  {
    if a.priority == b.priority == c.priority {
      NameTransitive(a.name, b.name, c.name);
    }
  }

  /** Python's string order, told without recursion: a prefix, or less at the first difference. */
  ghost predicate Precedes(a: string, b: string) {
    a <= b || exists k :: 0 <= k < |a| && k < |b| && a[..k] == b[..k] && a[k] < b[k]
  }

  lemma {:induction false} NameLeqMeans(a: string, b: string)
    ensures NameLeq(a, b) <==> Precedes(a, b)
  {
    if a != [] && b != [] {
      NameLeqMeans(a[1..], b[1..]);
      PrecedesTail(a, b);
    }
  }

  lemma PrecedesTail(a: string, b: string)
    requires a != [] && b != []
    ensures Precedes(a, b) <==> a[0] < b[0] || (a[0] == b[0] && Precedes(a[1..], b[1..]))
  {
    if a[0] == b[0] {
      assert a <= b <==> a[1..] <= b[1..];
      if k :| 0 <= k < |a[1..]| && k < |b[1..]| && a[1..][..k] == b[1..][..k] && a[1..][k] < b[1..][k] {
        assert a[..k + 1] == [a[0]] + a[1..][..k] && b[..k + 1] == [b[0]] + b[1..][..k];
        assert a[k + 1] < b[k + 1];
      }
      if k :| 0 <= k < |a| && k < |b| && a[..k] == b[..k] && a[k] < b[k] {
        assert k > 0 && a[1..][..k - 1] == a[..k][1..] && b[1..][..k - 1] == b[..k][1..];
        assert a[1..][k - 1] < b[1..][k - 1];
      }
    } else if a[0] < b[0] {
      assert a[..0] == b[..0];
    } else {
      assert forall k :: 0 < k <= |a| && k <= |b| ==> a[..k][0] != b[..k][0];
    }
  }

  /** By priority, and by name among equal priorities. */
  ghost predicate InOrder(a: PlanVm, b: PlanVm) {
    a.priority < b.priority || (a.priority == b.priority && Precedes(a.name, b.name))
  }

  predicate SameKey(a: PlanVm, b: PlanVm) {
    a.priority == b.priority && a.name == b.name
  }

  ghost predicate Sorted(vms: seq<PlanVm>) {
    forall i, j :: 0 <= i < j < |vms| ==> Leq(vms[i], vms[j])
  }

  /** The elements with the key of `k`, in order. */
  function WithKey(vms: seq<PlanVm>, k: PlanVm): seq<PlanVm> {
    if vms == [] then [] else
    var n := |vms| - 1;
    if SameKey(vms[n], k) then WithKey(vms[..n], k) + [vms[n]] else WithKey(vms[..n], k)
  }

  /** `x` goes behind everything that is not greater than it. */
  function Insert(vms: seq<PlanVm>, x: PlanVm): seq<PlanVm> {
    if vms == [] then [x] else
    var n := |vms| - 1;
    if Leq(vms[n], x) then vms + [x] else Insert(vms[..n], x) + [vms[n]]
  }

  function StableSort(vms: seq<PlanVm>): seq<PlanVm> {
    if vms == [] then [] else Insert(StableSort(vms[..|vms| - 1]), vms[|vms| - 1])
  }

  lemma {:induction false} InsertContents(vms: seq<PlanVm>, x: PlanVm)
    ensures multiset(Insert(vms, x)) == multiset(vms) + multiset{x}
  {
    if vms != [] {
      var n := |vms| - 1;
      assert vms == vms[..n] + [vms[n]];
      if !Leq(vms[n], x) {
        InsertContents(vms[..n], x);
      }
    }
  }

  lemma {:induction false} InsertSorted(vms: seq<PlanVm>, x: PlanVm)
    requires Sorted(vms)
    ensures Sorted(Insert(vms, x))
  {
    if vms != [] {
      var n := |vms| - 1;
      var last := vms[n];
      if Leq(last, x) {
        forall i | 0 <= i < n
          ensures Leq(vms[i], x)
        {
          LeqTransitive(vms[i], last, x);
        }
      } else {
        InsertSorted(vms[..n], x);
        InsertContents(vms[..n], x);
        NameTotal(last.name, x.name);
        var front := Insert(vms[..n], x);
        forall i | 0 <= i < |front|
          ensures Leq(front[i], last)
        {
          assert front[i] in multiset(front);
          assert front[i] in vms[..n] || front[i] == x;
        }
      }
    }
  }

  lemma KeyConcat(a: seq<PlanVm>, x: PlanVm, k: PlanVm)
    ensures WithKey(a + [x], k) == if SameKey(x, k) then WithKey(a, k) + [x] else WithKey(a, k)
  {
    AppendFront(a, x);
  }

  /** Inserting behind equals keeps the order among equals. */
  lemma {:induction false} InsertStable(vms: seq<PlanVm>, x: PlanVm, k: PlanVm)
    ensures WithKey(Insert(vms, x), k) == if SameKey(x, k) then WithKey(vms, k) + [x] else WithKey(vms, k)
  {
    KeyConcat(vms, x, k);
    if vms != [] {
      var n := |vms| - 1;
      if !Leq(vms[n], x) {
        InsertStable(vms[..n], x, k);
        KeyConcat(Insert(vms[..n], x), vms[n], k);
        if SameKey(x, k) && SameKey(vms[n], k) {
          NameTotal(x.name, vms[n].name);
        }
      }
    }
  }

  lemma {:induction false} SortContents(vms: seq<PlanVm>)
    ensures multiset(StableSort(vms)) == multiset(vms)
  {
    if vms != [] {
      var n := |vms| - 1;
      SortContents(vms[..n]);
      InsertContents(StableSort(vms[..n]), vms[n]);
      LastMultiset(vms);
    }
  }

  lemma {:induction false} SortSorts(vms: seq<PlanVm>)
    ensures Sorted(StableSort(vms))
  {
    if vms != [] {
      var n := |vms| - 1;
      SortSorts(vms[..n]);
      InsertSorted(StableSort(vms[..n]), vms[n]);
    }
  }

  lemma {:induction false} SortIsStable(vms: seq<PlanVm>, k: PlanVm)
    ensures WithKey(StableSort(vms), k) == WithKey(vms, k)
  {
    if vms != [] {
      var n := |vms| - 1;
      SortIsStable(vms[..n], k);
      InsertStable(StableSort(vms[..n]), vms[n], k);
    }
  }

  /** Sorting keeps the contents, orders by priority and name, and keeps the order among equals. */
  lemma StableSortCorrect(vms: seq<PlanVm>, k: PlanVm)
    ensures multiset(StableSort(vms)) == multiset(vms)
    ensures Sorted(StableSort(vms))
    ensures WithKey(StableSort(vms), k) == WithKey(vms, k)
  {
    SortContents(vms);
    SortSorts(vms);
    SortIsStable(vms, k);
  }

  // ---------------------------------------------------------------------
  // The plan
  // ---------------------------------------------------------------------

  function Priority(overrides: map<string, int>, vm: VM): int {
    if vm.id in overrides then overrides[vm.id] else 5
  }

  predicate HasNetworkId(m: NetworkMapping) {
    m.network.Some? && m.network.value.id.Some? && m.network.value.id.value != ""
  }

  /** The network ids that are set and not empty, in order. */
  function NetworkIds(ms: seq<NetworkMapping>): seq<string> {
    if ms == [] then [] else
    var n := |ms| - 1;
    NetworkIds(ms[..n]) + if HasNetworkId(ms[n]) then [ms[n].network.value.id.value] else []
  }

  /** The volume types that are not empty, in order. */
  function VolumeTypes(ms: seq<DiskMapping>): seq<string> {
    if ms == [] then [] else
    var n := |ms| - 1;
    VolumeTypes(ms[..n]) + if ms[n].volumeType != "" then [ms[n].volumeType] else []
  }

  function FlavorId(mapping: Option<VmMapping>): Option<string> {
    if mapping.Some? && mapping.value.flavor.Some? then Some(mapping.value.flavor.value.flavorId) else None
  }

  function PlanFor(lower: Lower, overrides: map<string, int>, it: Item): PlanVm {
    var steps := Numbered(WorkOf(it.mapping));
    PlanVm(it.vm.id, it.vm.name, Priority(overrides, it.vm), FlavorId(it.mapping),
           if it.mapping.Some? then NetworkIds(it.mapping.value.networks) else [],
           if it.mapping.Some? then VolumeTypes(it.mapping.value.disks) else [],
           Downtime(lower, it.vm), steps, Minutes(steps))
  }

  /** Some network that was matched has this id. */
  ghost predicate IsMatchedId(mapping: Option<VmMapping>, id: string) {
    && mapping.Some?
    && exists i ::
         && 0 <= i < |mapping.value.networks| && HasNetworkId(mapping.value.networks[i])
         && mapping.value.networks[i].network.value.id.value == id
  }

  /** What the plan of a VM says: its target networks are exactly the matched ones, its steps are numbered from one
      without a gap, and its minutes are those of the work the mapping calls for. */
  lemma PlanForMeans(lower: Lower, overrides: map<string, int>, it: Item)
    ensures var p := PlanFor(lower, overrides, it);
            && p.vmId == it.vm.id && p.name == it.vm.name
            && p.priority == (if it.vm.id in overrides then overrides[it.vm.id] else 5)
            && (p.flavorId.Some? <==> it.mapping.Some? && it.mapping.value.flavor.Some?)
            && (p.flavorId.Some? ==> p.flavorId.value == it.mapping.value.flavor.value.flavorId)
            && (forall id :: id in p.networkIds <==> IsMatchedId(it.mapping, id))
            && NumberedFromOne(p.steps)
            && p.minutes == WorkMinutes(WorkOf(it.mapping))
  {
    if it.mapping.Some? {
      forall id: string
        ensures id in NetworkIds(it.mapping.value.networks) <==> IsMatchedId(it.mapping, id)
      {
        NetworkIdsMembers(it.mapping.value.networks, id);
      }
    }
    NumberedMinutes(WorkOf(it.mapping));
  }

  ghost predicate NumberedFromOne(steps: seq<Step>) {
    forall i :: 0 <= i < |steps| ==> steps[i].order == i + 1
  }

  /** The target networks are exactly the ids of the networks that were matched and have one. */
  lemma {:induction false} NetworkIdsMembers(ms: seq<NetworkMapping>, id: string)
    ensures id in NetworkIds(ms) <==>
            exists i :: 0 <= i < |ms| && HasNetworkId(ms[i]) && ms[i].network.value.id.value == id
  {
    if ms != [] {
      var n := |ms| - 1;
      NetworkIdsMembers(ms[..n], id);
      if i :| 0 <= i < |ms| && HasNetworkId(ms[i]) && ms[i].network.value.id.value == id {
        assert i < n ==> ms[..n][i] == ms[i];
      }
    }
  }

  lemma {:induction false} VolumeTypesAll(ms: seq<DiskMapping>)
    requires forall i :: 0 <= i < |ms| ==> ms[i].volumeType != ""
    ensures |VolumeTypes(ms)| == |ms| && forall i :: 0 <= i < |ms| ==> VolumeTypes(ms)[i] == ms[i].volumeType
  {
    if ms != [] {
      VolumeTypesAll(ms[..|ms| - 1]);
    }
  }

  /** Mapped disks lose none of their volume types: one target per disk, in order. */
  lemma VolumeTypesOfDisks(disks: seq<Disk>)
    ensures var types := VolumeTypes(DisksMapped(disks));
            && |types| == |disks|
            && forall i :: 0 <= i < |disks| ==> types[i] == if disks[i].thinProvisioned then "ceph-rbd" else "ceph"
  {
    VolumeTypesAll(DisksMapped(disks));
  }

  /** The plans of the compatible items, in input order. */
  function Planned(lower: Lower, overrides: map<string, int>, items: seq<Item>): seq<PlanVm> {
    if items == [] then [] else
    var n := |items| - 1;
    if items[n].compatible then Planned(lower, overrides, items[..n]) + [PlanFor(lower, overrides, items[n])]
    else Planned(lower, overrides, items[..n])
  }

  function TotalMinutes(vms: seq<PlanVm>): nat {
    if vms == [] then 0 else TotalMinutes(vms[..|vms| - 1]) + vms[|vms| - 1].minutes
  }

  predicate InRange(priority: int) {
    1 <= priority <= 10
  }

  /** The VM has no priority of its own and so 5, or one from 1 to 10. */
  ghost predicate PriorityFits(overrides: map<string, int>, vm: VM) {
    vm.id in overrides ==> 1 <= overrides[vm.id] <= 10
  }

  ghost predicate SomePriorityOut(overrides: map<string, int>, items: seq<Item>) {
    exists i :: 0 <= i < |items| && items[i].compatible && !PriorityFits(overrides, items[i].vm)
  }

  /** `vms` holds what `planned` holds, by priority and name, and in the order of `planned` among equals. */
  ghost predicate StablySorted(planned: seq<PlanVm>, vms: seq<PlanVm>) {
    && (forall i, j :: 0 <= i < j < |vms| ==> InOrder(vms[i], vms[j]))
    && multiset(vms) == multiset(planned)
    && forall k :: WithKey(vms, k) == WithKey(planned, k)
  }

  /** `generate_plan`.  It fails exactly when some compatible VM has a priority outside 1 to 10; otherwise the plan
      is the stable sort of exactly the compatible VMs. */
  method GeneratePlan(lower: Lower, items: seq<Item>, overrides: map<string, int>) returns (r: Result<Plan, Error>)
    ensures r.Err? <==> SomePriorityOut(overrides, items)
    ensures r.Ok? ==>
              && r.value.vms == StableSort(Planned(lower, overrides, items))
              && r.value.totalVms == |Planned(lower, overrides, items)|
              && r.value.totalMinutes == TotalMinutes(Planned(lower, overrides, items))
              && StablySorted(Planned(lower, overrides, items), r.value.vms)
  {
    var planned := PlanCompatible(lower, items, overrides);
    if planned.Err? {
      return Err(planned.error);
    }
    var sorted := StableSort(planned.value);
    forall k: PlanVm
      ensures WithKey(sorted, k) == WithKey(planned.value, k)
    {
      SortIsStable(planned.value, k);
    }
    SortKeepsContents(planned.value);
    SortedInOrder(sorted);
    TotalPermutes(sorted, planned.value);
    r := Ok(Plan(sorted, |sorted|, TotalMinutes(sorted)));
  }

  lemma PlannedNext(lower: Lower, overrides: map<string, int>, items: seq<Item>, i: nat)
    requires i < |items|
    ensures Planned(lower, overrides, items[..i + 1]) ==
            Planned(lower, overrides, items[..i])
            + if items[i].compatible then [PlanFor(lower, overrides, items[i])] else []
  {
    PrefixOfPrefix(items, i + 1, i);
  }

  /** The loop of `generate_plan`. */
  method PlanCompatible(lower: Lower, items: seq<Item>, overrides: map<string, int>)
    returns (r: Result<seq<PlanVm>, Error>)
    ensures r.Err? <==> SomePriorityOut(overrides, items)
    ensures r.Ok? ==> r.value == Planned(lower, overrides, items)
  {
    var plans: seq<PlanVm> := [];
    var i := 0;
    while i < |items|
      invariant 0 <= i <= |items| && plans == Planned(lower, overrides, items[..i])
      invariant forall k :: 0 <= k < i && items[k].compatible ==> InRange(Priority(overrides, items[k].vm))
    {
      PlannedNext(lower, overrides, items, i);
      if items[i].compatible {
        if !InRange(Priority(overrides, items[i].vm)) {
          return Err(PriorityOutOfRange);
        }
        var plan := PlanOne(lower, items[i], overrides);
        plans := plans + [plan];
      }
      i := i + 1;
    }
    WholePrefix(items);
    r := Ok(plans);
  }

  /** The list of target networks. */
  method CollectNetworkIds(ms: seq<NetworkMapping>) returns (ids: seq<string>)
    ensures ids == NetworkIds(ms)
  {
    ids := [];
    for i := 0 to |ms|
      invariant ids == NetworkIds(ms[..i])
    {
      PrefixOfPrefix(ms, i + 1, i);
      if HasNetworkId(ms[i]) {
        ids := ids + [ms[i].network.value.id.value];
      }
    }
    WholePrefix(ms);
  }

  /** The list of target volume types. */
  method CollectVolumeTypes(ms: seq<DiskMapping>) returns (types: seq<string>)
    ensures types == VolumeTypes(ms)
  {
    types := [];
    for i := 0 to |ms|
      invariant types == VolumeTypes(ms[..i])
    {
      PrefixOfPrefix(ms, i + 1, i);
      if ms[i].volumeType != "" {
        types := types + [ms[i].volumeType];
      }
    }
    WholePrefix(ms);
  }

  /** One turn of the loop for a compatible VM. */
  method PlanOne(lower: Lower, it: Item, overrides: map<string, int>) returns (r: PlanVm)
    ensures r == PlanFor(lower, overrides, it)
  {
    var priority := 5;
    if it.vm.id in overrides {
      priority := overrides[it.vm.id];
    }
    var flavorId: Option<string> := None;
    var networkIds: seq<string> := [];
    var volumeTypes: seq<string> := [];
    if it.mapping.Some? {
      if it.mapping.value.flavor.Some? {
        flavorId := Some(it.mapping.value.flavor.value.flavorId);
      }
      networkIds := CollectNetworkIds(it.mapping.value.networks);
      volumeTypes := CollectVolumeTypes(it.mapping.value.disks);
    }
    var steps := BuildSteps(it.mapping);
    r := PlanVm(it.vm.id, it.vm.name, priority, flavorId, networkIds, volumeTypes, Downtime(lower, it.vm), steps,
                Minutes(steps));
  }

  lemma SortedInOrder(vms: seq<PlanVm>)
    requires Sorted(vms)
    ensures forall i, j :: 0 <= i < j < |vms| ==> InOrder(vms[i], vms[j])
  {
    forall i, j | 0 <= i < j < |vms|
      ensures InOrder(vms[i], vms[j])
    {
      NameLeqMeans(vms[i].name, vms[j].name);
    }
  }

  lemma SortKeepsContents(vms: seq<PlanVm>)
    ensures multiset(StableSort(vms)) == multiset(vms) && Sorted(StableSort(vms)) && |StableSort(vms)| == |vms|
  {
    StableSortCorrect(vms, PlanVm("", "", 0, None, [], [], 0, [], 0));
    assert |multiset(StableSort(vms))| == |StableSort(vms)| && |multiset(vms)| == |vms|;
  }

  lemma TotalLast(vms: seq<PlanVm>, p: PlanVm)
    ensures TotalMinutes(vms + [p]) == TotalMinutes(vms) + p.minutes
  {
    AppendFront(vms, p);
  }

  lemma {:induction false} TotalWithout(vms: seq<PlanVm>, j: nat)
    requires j < |vms|
    ensures TotalMinutes(vms) == vms[j].minutes + TotalMinutes(Without(vms, j))
  {
    var n := |vms| - 1;
    if j == n {
      WithoutEnd(vms);
    } else {
      TotalWithout(vms[..n], j);
      TotalLast(Without(vms[..n], j), vms[n]);
      WithoutFront(vms, j);
    }
  }

  lemma {:induction false} TotalPermutes(a: seq<PlanVm>, b: seq<PlanVm>)
    requires multiset(a) == multiset(b)
    ensures TotalMinutes(a) == TotalMinutes(b)
  {
    if a == [] {
      assert |multiset(a)| == |a| && |multiset(b)| == |b|;
    } else {
      var j := PermutationHead(a, b);
      TotalPermutes(a[1..], Without(b, j));
      TotalWithout(b, j);
      TotalWithout(a, 0);
      assert Without(a, 0) == a[1..];
    }
  }

  function PlanIfCompatible(lower: Lower, overrides: map<string, int>, it: Item): Option<PlanVm> {
    if it.compatible then Some(PlanFor(lower, overrides, it)) else None
  }

  lemma {:induction false} PlannedIsGathered(lower: Lower, overrides: map<string, int>, items: seq<Item>)
    ensures Planned(lower, overrides, items) == Gather((it: Item) => PlanIfCompatible(lower, overrides, it), items)
  {
    if items != [] {
      PlannedIsGathered(lower, overrides, items[..|items| - 1]);
    }
  }

  /** Which VMs are planned, and the total, do not depend on the order of the input. */
  lemma PlanIgnoresInputOrder(lower: Lower, overrides: map<string, int>, a: seq<Item>, b: seq<Item>)
    requires multiset(a) == multiset(b)
    ensures multiset(Planned(lower, overrides, a)) == multiset(Planned(lower, overrides, b))
    ensures TotalMinutes(Planned(lower, overrides, a)) == TotalMinutes(Planned(lower, overrides, b))
  {
    PlannedIsGathered(lower, overrides, a);
    PlannedIsGathered(lower, overrides, b);
    GatherPermutes((it: Item) => PlanIfCompatible(lower, overrides, it), a, b);
    TotalPermutes(Planned(lower, overrides, a), Planned(lower, overrides, b));
  }
}
