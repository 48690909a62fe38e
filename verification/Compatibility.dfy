/**
 The compatibility score.  Scores are integer hundredths: 100 is the source's 1.0.
*/
module Compatibility {
  import opened Prelude
  import opened Inventory

  datatype Severity = Critical | High | Medium | Low

  datatype Category = Os | Cpu | Memory | DiskSpace | Network | Firmware | Tools | Controller | NicKind

  datatype Issue = Issue(severity: Severity, category: Category, compatible: bool)

  datatype Assessment = Assessment(compatible: bool, score: int, issues: seq<Issue>)

  const SUPPORTED := ["centos", "debian", "ubuntu", "red hat", "rhel", "suse", "sles", "oracle linux", "rocky linux",
                      "almalinux", "fedora", "freebsd", "windows server", "windows 10", "windows 11", "windows 8",
                      "windows 2012", "windows 2016", "windows 2019", "windows 2022"]

  const UNSUPPORTED := ["solaris", "hp-ux", "aix", "darwin", "mac os", "os/2", "netware"]

  /** The substring test `sub in s`. */
  predicate Contains(s: string, sub: string) {
    sub <= s || (s != [] && Contains(s[1..], sub))
  }

  predicate ContainsAny(s: string, subs: seq<string>) {
    exists k :: 0 <= k < |subs| && Contains(s, subs[k])
  }

  // ---------------------------------------------------------------------
  // The checks, as the issues each one appends
  // ---------------------------------------------------------------------

  predicate Present(s: Option<string>) {
    s.Some? && s.value != ""
  }

  function PowerIssues(lower: Lower, vm: VM): seq<Issue> {
    if lower(vm.powerState) == "suspended" then [Issue(Critical, Os, false)] else []
  }

  function OsIssues(lower: Lower, vm: VM): seq<Issue> {
    if !Present(vm.guestOs) then [Issue(High, Os, false)]
    else if ContainsAny(lower(vm.guestOs.value), UNSUPPORTED) then [Issue(Critical, Os, false)]
    else if ContainsAny(lower(vm.guestOs.value), SUPPORTED) then []
    else [Issue(Low, Os, true)]
  }

  function CpuIssues(vm: VM): seq<Issue> {
    if vm.hardware.None? || vm.hardware.value.cpuCount <= 0 then [Issue(Critical, Cpu, false)]
    else if vm.hardware.value.cpuCount > 128 then [Issue(Low, Cpu, true)] else []
  }

  function MemoryIssues(vm: VM): seq<Issue> {
    if vm.hardware.None? || vm.hardware.value.memoryMb <= 0 then [Issue(Critical, Memory, false)]
    else if vm.hardware.value.memoryMb > 524288 then [Issue(Low, Memory, true)] else []
  }

  function DiskIssues(vm: VM): seq<Issue> {
    if vm.hardware.None? || vm.hardware.value.disks == [] then [Issue(High, DiskSpace, false)]
    else if TotalDisk(vm.hardware.value.disks) > 2000 then [Issue(Low, DiskSpace, true)] else []
  }

  function NetworkIssues(vm: VM): seq<Issue> {
    if vm.hardware.None? || vm.hardware.value.nics == [] then [Issue(Low, Network, true)] else []
  }

  function FirmwareIssues(lower: Lower, vm: VM): seq<Issue> {
    if Present(vm.firmware) && lower(vm.firmware.value) == "efi" then [Issue(Medium, Firmware, true)] else []
  }

  function SecureBootIssues(vm: VM): seq<Issue> {
    if vm.secureBoot then [Issue(High, Firmware, false)] else []
  }

  function ToolsIssues(lower: Lower, vm: VM): seq<Issue> {
    if Present(vm.toolsStatus) && ContainsAny(lower(vm.toolsStatus.value), ["notinstalled", "notrunning"])
    then [Issue(Medium, Tools, true)] else []
  }

  /** The issue of a controller kind, given in lower case. */
  function ControllerIssue(kind: string): seq<Issue> {
    if kind == "ide" then [Issue(High, Controller, false)]
    else if kind == "lsilogic" then [Issue(Low, Controller, true)]
    else if kind == "nvme" then [Issue(Medium, Controller, true)] else []
  }

  function NicIssue(kind: string): seq<Issue> {
    if kind == "e1000" then [Issue(Low, NicKind, true)]
    else if kind == "vmxnet2" || kind == "sriov" || kind == "unknown" then [Issue(Medium, NicKind, true)] else []
  }

  /** One issue list per kind, in the order of first occurrence. */
  function PerKind(kinds: seq<string>, issue: string -> seq<Issue>): seq<Issue> {
    if kinds == [] then [] else
    var n := |kinds| - 1;
    if kinds[n] in kinds[..n] then PerKind(kinds[..n], issue) else PerKind(kinds[..n], issue) + issue(kinds[n])
  }

  /** What one turn of a device loop adds to the issues it was given. */
  lemma PerKindNext(issues: seq<Issue>, kinds: seq<string>, kind: string, issue: string -> seq<Issue>)
    ensures issues + PerKind(kinds + [kind], issue) ==
            issues + PerKind(kinds, issue) + if kind in kinds then [] else issue(kind)
    ensures (set k | k in kinds + [kind]) == (set k | k in kinds) + {kind}
  {
    AppendFront(kinds, kind);
  }

  function ControllerKinds(lower: Lower, vm: VM): seq<string> {
    seq(|vm.controllers|, i requires 0 <= i < |vm.controllers| => lower(vm.controllers[i]))
  }

  /** The NIC types that are set among the first `n` NICs, in order. */
  function NicKindsUpTo(nics: seq<Nic>, n: nat): seq<string>
    requires n <= |nics|
  {
    if n == 0 then [] else
    NicKindsUpTo(nics, n - 1) + if Present(nics[n - 1].nicType) then [nics[n - 1].nicType.value] else []
  }

  function NicKinds(nics: seq<Nic>): seq<string> {
    NicKindsUpTo(nics, |nics|)
  }

  /** The checks without a loop over devices. */
  function SimpleIssues(lower: Lower, vm: VM): seq<Issue> {
    PowerIssues(lower, vm) + OsIssues(lower, vm) + CpuIssues(vm) + MemoryIssues(vm) + DiskIssues(vm)
    + NetworkIssues(vm) + FirmwareIssues(lower, vm) + SecureBootIssues(vm) + ToolsIssues(lower, vm)
  }

  function AllIssues(lower: Lower, vm: VM): seq<Issue> {
    SimpleIssues(lower, vm) + PerKind(ControllerKinds(lower, vm), ControllerIssue)
    + PerKind(NicKinds(NicsOf(vm)), NicIssue)
  }

  // ---------------------------------------------------------------------
  // Scoring
  // ---------------------------------------------------------------------

  function Weight(s: Severity): int {
    match s case Critical => -30 case High => -20 case Medium => -10 case Low => -5
  }

  function Max(a: int, b: int): int {
    if a >= b then a else b
  }

  /** Clamping after every issue, as the loop does. */
  function StepScore(issues: seq<Issue>): int {
    if issues == [] then 100 else
    var n := |issues| - 1;
    if issues[n].compatible then StepScore(issues[..n])
    else Max(0, StepScore(issues[..n]) + Weight(issues[n].severity))
  }

  /** Incompatible issues of one severity. */
  function Count(issues: seq<Issue>, s: Severity): nat {
    if issues == [] then 0 else
    var n := |issues| - 1;
    Count(issues[..n], s) + if issues[n].severity == s && !issues[n].compatible then 1 else 0
  }

  function Penalty(issues: seq<Issue>): nat {
    30 * Count(issues, Critical) + 20 * Count(issues, High) + 10 * Count(issues, Medium) + 5 * Count(issues, Low)
  }

  /** Step-by-step clamping equals one final clamp, on any list of issues. */
  lemma {:induction false} ClampOnce(issues: seq<Issue>)
    ensures StepScore(issues) == Max(0, 100 - Penalty(issues))
  {
    if issues != [] {
      ClampOnce(issues[..|issues| - 1]);
    }
  }

  lemma {:induction false} CountConcat(a: seq<Issue>, b: seq<Issue>, s: Severity)
    ensures Count(a + b, s) == Count(a, s) + Count(b, s)
  {
    if b == [] {
      assert a + b == a;
    } else {
      var n := |b| - 1;
      CountConcat(a, b[..n], s);
      ConcatFront(a, b);
    }
  }

  lemma CountSingle(i: Issue, s: Severity)
    ensures Count([i], s) == if i.severity == s && !i.compatible then 1 else 0
    ensures Count([], s) == 0
  {
    assert [i][..0] == [];
  }

  /** A kind counts once however often and wherever it occurs. */
  lemma {:induction false} PerKindCount(kinds: seq<string>, issue: string -> seq<Issue>, s: Severity, hit: string)
    requires forall k :: Count(issue(k), s) == if k == hit then 1 else 0
    ensures Count(PerKind(kinds, issue), s) == if hit in kinds then 1 else 0
  {
    if kinds != [] {
      var n := |kinds| - 1;
      PerKindCount(kinds[..n], issue, s, hit);
      assert kinds == kinds[..n] + [kinds[n]];
      CountConcat(PerKind(kinds[..n], issue), issue(kinds[n]), s);
    }
  }

  lemma {:induction false} PerKindNone(kinds: seq<string>, issue: string -> seq<Issue>, s: Severity)
    requires forall k :: Count(issue(k), s) == 0
    ensures Count(PerKind(kinds, issue), s) == 0
  {
    if kinds != [] {
      var n := |kinds| - 1;
      PerKindNone(kinds[..n], issue, s);
      CountConcat(PerKind(kinds[..n], issue), issue(kinds[n]), s);
    }
  }

  lemma ControllerCounts(kinds: seq<string>, s: Severity)
    ensures Count(PerKind(kinds, ControllerIssue), s) == if s.High? && "ide" in kinds then 1 else 0
  {
    forall k: string
      ensures Count(ControllerIssue(k), s) == if s.High? && k == "ide" then 1 else 0
    {
      CountSingle(Issue(High, Controller, false), s);
      CountSingle(Issue(Low, Controller, true), s);
      CountSingle(Issue(Medium, Controller, true), s);
    }
    if s.High? {
      PerKindCount(kinds, ControllerIssue, s, "ide");
    } else {
      PerKindNone(kinds, ControllerIssue, s);
    }
  }

  lemma NicCounts(kinds: seq<string>, s: Severity)
    ensures Count(PerKind(kinds, NicIssue), s) == 0
  {
    forall k: string
      ensures Count(NicIssue(k), s) == 0
    {
      CountSingle(Issue(Low, NicKind, true), s);
      CountSingle(Issue(Medium, NicKind, true), s);
    }
    PerKindNone(kinds, NicIssue, s);
  }

  // ---------------------------------------------------------------------
  // The closed form
  // ---------------------------------------------------------------------

  function One(b: bool): nat {
    if b then 1 else 0
  }

  predicate Suspended(lower: Lower, vm: VM) {
    lower(vm.powerState) == "suspended"
  }

  predicate UnsupportedOs(lower: Lower, vm: VM) {
    Present(vm.guestOs) && ContainsAny(lower(vm.guestOs.value), UNSUPPORTED)
  }

  /** Suspended, unsupported OS, no vCPU, no memory. */
  function Criticals(lower: Lower, vm: VM): nat {
    One(Suspended(lower, vm))
    + One(UnsupportedOs(lower, vm))
    + One(vm.hardware.None? || vm.hardware.value.cpuCount <= 0)
    + One(vm.hardware.None? || vm.hardware.value.memoryMb <= 0)
  }

  /** Undetected OS, no disks, secure boot, some IDE controller. */
  function Highs(lower: Lower, vm: VM): nat {
    One(!Present(vm.guestOs)) + One(vm.hardware.None? || vm.hardware.value.disks == []) + One(vm.secureBoot)
    + One("ide" in ControllerKinds(lower, vm))
  }

  lemma CountFew(issues: seq<Issue>, s: Severity)
    requires |issues| <= 1
    ensures Count(issues, s) == if |issues| == 1 && issues[0].severity == s && !issues[0].compatible then 1 else 0
  {
    if |issues| == 1 {
      CountSingle(issues[0], s);
      assert issues == [issues[0]];
    }
  }

  lemma SimpleCounts(lower: Lower, vm: VM, s: Severity)
    ensures Count(SimpleIssues(lower, vm), s) ==
            Count(PowerIssues(lower, vm), s) + Count(OsIssues(lower, vm), s) + Count(CpuIssues(vm), s)
            + Count(MemoryIssues(vm), s) + Count(DiskIssues(vm), s) + Count(NetworkIssues(vm), s)
            + Count(FirmwareIssues(lower, vm), s) + Count(SecureBootIssues(vm), s) + Count(ToolsIssues(lower, vm), s)
  {
    var parts := PowerIssues(lower, vm);
    CountConcat(parts, OsIssues(lower, vm), s);
    parts := parts + OsIssues(lower, vm);
    CountConcat(parts, CpuIssues(vm), s);
    parts := parts + CpuIssues(vm);
    CountConcat(parts, MemoryIssues(vm), s);
    parts := parts + MemoryIssues(vm);
    CountConcat(parts, DiskIssues(vm), s);
    parts := parts + DiskIssues(vm);
    CountConcat(parts, NetworkIssues(vm), s);
    parts := parts + NetworkIssues(vm);
    CountConcat(parts, FirmwareIssues(lower, vm), s);
    parts := parts + FirmwareIssues(lower, vm);
    CountConcat(parts, SecureBootIssues(vm), s);
    parts := parts + SecureBootIssues(vm);
    CountConcat(parts, ToolsIssues(lower, vm), s);
  }

  lemma OsCounts(lower: Lower, vm: VM, s: Severity)
    ensures Count(PowerIssues(lower, vm), s) == One(s.Critical? && Suspended(lower, vm))
    ensures Count(OsIssues(lower, vm), s) ==
            One(s.Critical? && UnsupportedOs(lower, vm)) + One(s.High? && !Present(vm.guestOs))
  {
    CountFew(PowerIssues(lower, vm), s);
    CountFew(OsIssues(lower, vm), s);
  }

  lemma HardwareCounts(vm: VM, s: Severity)
    ensures Count(CpuIssues(vm), s) == One(s.Critical? && (vm.hardware.None? || vm.hardware.value.cpuCount <= 0))
    ensures Count(MemoryIssues(vm), s) == One(s.Critical? && (vm.hardware.None? || vm.hardware.value.memoryMb <= 0))
    ensures Count(DiskIssues(vm), s) == One(s.High? && (vm.hardware.None? || vm.hardware.value.disks == []))
    ensures Count(NetworkIssues(vm), s) == 0
  {
    CountFew(CpuIssues(vm), s);
    CountFew(MemoryIssues(vm), s);
    CountFew(DiskIssues(vm), s);
    CountFew(NetworkIssues(vm), s);
  }

  lemma BootCounts(lower: Lower, vm: VM, s: Severity)
    ensures Count(FirmwareIssues(lower, vm), s) == 0
    ensures Count(SecureBootIssues(vm), s) == One(s.High? && vm.secureBoot)
    ensures Count(ToolsIssues(lower, vm), s) == 0
  {
    CountFew(FirmwareIssues(lower, vm), s);
    CountFew(SecureBootIssues(vm), s);
    CountFew(ToolsIssues(lower, vm), s);
  }

  /** How many incompatible issues of each severity a VM gets. */
  lemma IssueCounts(lower: Lower, vm: VM, s: Severity)
    ensures Count(AllIssues(lower, vm), s) ==
            match s case Critical => Criticals(lower, vm) case High => Highs(lower, vm) case _ => 0
  {
    var simple := SimpleIssues(lower, vm);
    SimpleCounts(lower, vm, s);
    OsCounts(lower, vm, s);
    HardwareCounts(vm, s);
    BootCounts(lower, vm, s);
    var controllers := PerKind(ControllerKinds(lower, vm), ControllerIssue);
    CountConcat(simple, controllers, s);
    CountConcat(simple + controllers, PerKind(NicKinds(NicsOf(vm)), NicIssue), s);
    ControllerCounts(ControllerKinds(lower, vm), s);
    NicCounts(NicKinds(NicsOf(vm)), s);
  }

  function Assess(lower: Lower, vm: VM): Assessment {
    var issues := AllIssues(lower, vm);
    var score := StepScore(issues);
    Assessment(score >= 50 && Count(issues, Critical) == 0, score, issues)
  }

  /** The score is a formula of two counts, and a VM is compatible exactly without critical and with at most two
      high issues. */
  lemma ScoreFormula(lower: Lower, vm: VM)
    ensures Assess(lower, vm).score == Max(0, 100 - 30 * Criticals(lower, vm) - 20 * Highs(lower, vm))
    ensures Assess(lower, vm).compatible <==> Criticals(lower, vm) == 0 && Highs(lower, vm) <= 2
  {
    var issues := AllIssues(lower, vm);
    ClampOnce(issues);
    IssueCounts(lower, vm, Critical);
    IssueCounts(lower, vm, High);
    IssueCounts(lower, vm, Medium);
    IssueCounts(lower, vm, Low);
  }

  // ---------------------------------------------------------------------
  // What score, verdict and issues mean for a VM
  // ---------------------------------------------------------------------

  predicate StandsAt(sub: string, s: string, i: nat) {
    i + |sub| <= |s| && s[i..i + |sub|] == sub
  }

  /** `sub` stands somewhere in `s`. */
  ghost predicate Occurs(sub: string, s: string) {
    exists i: nat :: StandsAt(sub, s, i)
  }

  lemma TailSlice(s: string, i: nat, n: nat)
    requires s != [] && i + n <= |s| - 1
    ensures s[1..][i..i + n] == s[i + 1..i + 1 + n]
  {
  }

  lemma OccursInTail(sub: string, s: string)
    requires s != []
    ensures Occurs(sub, s) <==> StandsAt(sub, s, 0) || Occurs(sub, s[1..])
  {
    if i: nat :| StandsAt(sub, s, i) {
      if i > 0 {
        TailSlice(s, i - 1, |sub|);
        assert StandsAt(sub, s[1..], i - 1);
      }
    }
    if i: nat :| StandsAt(sub, s[1..], i) {
      TailSlice(s, i, |sub|);
      assert StandsAt(sub, s, i + 1);
    }
  }

  lemma {:induction false} ContainsMeans(s: string, sub: string)
    ensures Contains(s, sub) <==> Occurs(sub, s)
  {
    assert sub <= s <==> StandsAt(sub, s, 0);
    if s != [] {
      ContainsMeans(s[1..], sub);
      OccursInTail(sub, s);
    }
  }

  ghost predicate SomeOccurs(subs: seq<string>, s: string) {
    exists k :: 0 <= k < |subs| && Occurs(subs[k], s)
  }

  lemma ContainsAnyMeans(s: string, subs: seq<string>)
    ensures ContainsAny(s, subs) <==> SomeOccurs(subs, s)
  {
    forall k | 0 <= k < |subs|
      ensures Contains(s, subs[k]) <==> Occurs(subs[k], s)
    {
      ContainsMeans(s, subs[k]);
    }
  }

  /** The guest system in lower case, empty when it was not detected. */
  function Guest(lower: Lower, vm: VM): string {
    match vm.guestOs case None => "" case Some(os) => if os == "" then "" else lower(os)
  }

  predicate Detected(vm: VM) {
    vm.guestOs != None && vm.guestOs != Some("")
  }

  /** A guest system that OpenStack does not support. */
  ghost predicate Foreign(lower: Lower, vm: VM) {
    Detected(vm) && SomeOccurs(["solaris", "hp-ux", "aix", "darwin", "mac os", "os/2", "netware"], Guest(lower, vm))
  }

  ghost predicate Familiar(lower: Lower, vm: VM) {
    && Detected(vm)
    && SomeOccurs(["centos", "debian", "ubuntu", "red hat", "rhel", "suse", "sles", "oracle linux", "rocky linux",
                   "almalinux", "fedora", "freebsd", "windows server", "windows 10", "windows 11", "windows 8",
                   "windows 2012", "windows 2016", "windows 2019", "windows 2022"], Guest(lower, vm))
  }

  lemma GuestMeans(lower: Lower, vm: VM)
    ensures UnsupportedOs(lower, vm) <==> Foreign(lower, vm)
    ensures Present(vm.guestOs) && ContainsAny(lower(vm.guestOs.value), SUPPORTED) <==> Familiar(lower, vm)
  {
    if Detected(vm) {
      ContainsAnyMeans(lower(vm.guestOs.value), UNSUPPORTED);
      ContainsAnyMeans(lower(vm.guestOs.value), SUPPORTED);
    }
  }

  /** Score and verdict of a VM in its own terms. */
  lemma VerdictMeans(lower: Lower, vm: VM)
    ensures var hw := vm.hardware;
            var c := One(lower(vm.powerState) == "suspended") + One(Foreign(lower, vm))
                     + One(hw == None || hw.value.cpuCount <= 0) + One(hw == None || hw.value.memoryMb <= 0);
            var h := One(!Detected(vm)) + One(hw == None || hw.value.disks == []) + One(vm.secureBoot)
                     + One(HasController(lower, vm, "ide"));
            && Assess(lower, vm).score == (if 30 * c + 20 * h >= 100 then 0 else 100 - 30 * c - 20 * h)
            && (Assess(lower, vm).compatible <==> c == 0 && h <= 2)
  {
    ScoreFormula(lower, vm);
    GuestMeans(lower, vm);
    KindsMean(lower, vm, "ide");
  }

  lemma KindsMean(lower: Lower, vm: VM, kind: string)
    ensures kind in ControllerKinds(lower, vm) <==> HasController(lower, vm, kind)
  {
    if i :| 0 <= i < |vm.controllers| && lower(vm.controllers[i]) == kind {
      assert ControllerKinds(lower, vm)[i] == kind;
    }
  }

  lemma {:induction false} PerKindMembers(kinds: seq<string>, issue: string -> seq<Issue>, x: Issue)
    ensures x in PerKind(kinds, issue) <==> exists i :: 0 <= i < |kinds| && x in issue(kinds[i])
  {
    if kinds != [] {
      var n := |kinds| - 1;
      PerKindMembers(kinds[..n], issue, x);
      if i :| 0 <= i < |kinds| && x in issue(kinds[i]) {
        assert i < n ==> kinds[..n][i] == kinds[i];
        if i == n && kinds[n] in kinds[..n] {
          var j :| 0 <= j < n && kinds[..n][j] == kinds[n];
        }
      }
    }
  }

  lemma {:induction false} NicKindsMean(nics: seq<Nic>, n: nat, kind: string)
    requires n <= |nics|
    ensures kind in NicKindsUpTo(nics, n) <==>
            exists i :: 0 <= i < n && nics[i].nicType == Some(kind) && kind != ""
  {
    if n > 0 {
      NicKindsMean(nics, n - 1, kind);
    }
  }

  lemma InAllIssues(lower: Lower, vm: VM, x: Issue)
    ensures x in AllIssues(lower, vm) <==>
            || x in PowerIssues(lower, vm) || x in OsIssues(lower, vm) || x in CpuIssues(vm)
            || x in MemoryIssues(vm) || x in DiskIssues(vm) || x in NetworkIssues(vm)
            || x in FirmwareIssues(lower, vm) || x in SecureBootIssues(vm) || x in ToolsIssues(lower, vm)
            || x in PerKind(ControllerKinds(lower, vm), ControllerIssue)
            || x in PerKind(NicKinds(NicsOf(vm)), NicIssue)
  {
  }

  /** The warnings, which cost nothing: guest system, ... */
  lemma GuestWarning(lower: Lower, vm: VM)
    ensures Issue(Low, Os, true) in Assess(lower, vm).issues <==>
            Detected(vm) && !Foreign(lower, vm) && !Familiar(lower, vm)
  {
    GuestMeans(lower, vm);
    DeviceIssues(lower, vm);
    InAllIssues(lower, vm, Issue(Low, Os, true));
  }

  /** ... size, ... */
  lemma SizeWarnings(lower: Lower, vm: VM)
    ensures var issues, hw := Assess(lower, vm).issues, vm.hardware;
            && (Issue(Low, Cpu, true) in issues <==> hw.Some? && hw.value.cpuCount > 128)
            && (Issue(Low, Memory, true) in issues <==> hw.Some? && hw.value.memoryMb > 524288)
  {
    DeviceIssues(lower, vm);
    InAllIssues(lower, vm, Issue(Low, Cpu, true));
    InAllIssues(lower, vm, Issue(Low, Memory, true));
  }

  lemma DiskAndNetworkWarnings(lower: Lower, vm: VM)
    ensures var issues, hw := Assess(lower, vm).issues, vm.hardware;
            && (Issue(Low, DiskSpace, true) in issues <==> hw.Some? && TotalDisk(hw.value.disks) > 2000)
            && (Issue(Low, Network, true) in issues <==> hw == None || hw.value.nics == [])
  {
    DeviceIssues(lower, vm);
    InAllIssues(lower, vm, Issue(Low, DiskSpace, true));
    InAllIssues(lower, vm, Issue(Low, Network, true));
  }

  lemma DeviceIssues(lower: Lower, vm: VM)
    ensures forall x :: x in PerKind(ControllerKinds(lower, vm), ControllerIssue) ==> x.category.Controller?
    ensures forall x :: x in PerKind(NicKinds(NicsOf(vm)), NicIssue) ==> x.category.NicKind?
  {
    forall x | x in PerKind(ControllerKinds(lower, vm), ControllerIssue)
      ensures x.category.Controller?
    {
      PerKindMembers(ControllerKinds(lower, vm), ControllerIssue, x);
    }
    forall x | x in PerKind(NicKinds(NicsOf(vm)), NicIssue)
      ensures x.category.NicKind?
    {
      PerKindMembers(NicKinds(NicsOf(vm)), NicIssue, x);
    }
  }

  /** ... firmware and tools, ... */
  lemma BootWarnings(lower: Lower, vm: VM)
    ensures var issues := Assess(lower, vm).issues;
            && (Issue(Medium, Firmware, true) in issues <==>
                vm.firmware.Some? && vm.firmware.value != "" && lower(vm.firmware.value) == "efi")
            && (Issue(Medium, Tools, true) in issues <==>
                && vm.toolsStatus.Some? && vm.toolsStatus.value != ""
                && var status := lower(vm.toolsStatus.value);
                   Occurs("notinstalled", status) || Occurs("notrunning", status))
  {
    DeviceIssues(lower, vm);
    InAllIssues(lower, vm, Issue(Medium, Firmware, true));
    InAllIssues(lower, vm, Issue(Medium, Tools, true));
    if Present(vm.toolsStatus) {
      ContainsAnyMeans(lower(vm.toolsStatus.value), ["notinstalled", "notrunning"]);
      TwoOccur("notinstalled", "notrunning", lower(vm.toolsStatus.value));
    }
  }

  lemma TwoOccur(a: string, b: string, s: string)
    ensures SomeOccurs([a, b], s) <==> Occurs(a, s) || Occurs(b, s)
  {
    assert [a, b][0] == a && [a, b][1] == b;
  }

  ghost predicate HasController(lower: Lower, vm: VM, kind: string) {
    exists i :: 0 <= i < |vm.controllers| && lower(vm.controllers[i]) == kind
  }

  ghost predicate HasNic(vm: VM, kind: string) {
    && vm.hardware.Some?
    && exists i :: 0 <= i < |vm.hardware.value.nics| && vm.hardware.value.nics[i].nicType == Some(kind)
  }

  /** ... disk controllers, ... */
  lemma ControllerWarning(lower: Lower, vm: VM, s: Severity)
    requires s.Low? || s.Medium?
    ensures Issue(s, Controller, true) in Assess(lower, vm).issues <==>
            HasController(lower, vm, if s.Low? then "lsilogic" else "nvme")
  {
    var x, kinds := Issue(s, Controller, true), ControllerKinds(lower, vm);
    InAllIssues(lower, vm, x);
    PerKindMembers(kinds, ControllerIssue, x);
    KindsMean(lower, vm, if s.Low? then "lsilogic" else "nvme");
    NicsAreNotControllers(vm, x);
  }

  lemma NicsAreNotControllers(vm: VM, x: Issue)
    requires x.category.Controller?
    ensures x !in PerKind(NicKinds(NicsOf(vm)), NicIssue)
  {
    PerKindMembers(NicKinds(NicsOf(vm)), NicIssue, x);
  }

  lemma NicIssueIn(vm: VM, x: Issue)
    ensures x in PerKind(NicKinds(NicsOf(vm)), NicIssue) <==>
            || (HasNic(vm, "e1000") && x == Issue(Low, NicKind, true))
            || ((HasNic(vm, "vmxnet2") || HasNic(vm, "sriov") || HasNic(vm, "unknown"))
                && x == Issue(Medium, NicKind, true))
  {
    var nics := NicsOf(vm);
    PerKindMembers(NicKinds(nics), NicIssue, x);
    NicKindsMean(nics, |nics|, "e1000");
    NicKindsMean(nics, |nics|, "vmxnet2");
    NicKindsMean(nics, |nics|, "sriov");
    NicKindsMean(nics, |nics|, "unknown");
  }

  /** ... and NIC types. */
  lemma NicWarnings(lower: Lower, vm: VM)
    ensures var issues := Assess(lower, vm).issues;
            && (Issue(Low, NicKind, true) in issues <==> HasNic(vm, "e1000"))
            && (Issue(Medium, NicKind, true) in issues <==>
                HasNic(vm, "vmxnet2") || HasNic(vm, "sriov") || HasNic(vm, "unknown"))
  {
    NicIssueIn(vm, Issue(Low, NicKind, true));
    NicIssueIn(vm, Issue(Medium, NicKind, true));
    DeviceIssues(lower, vm);
    InAllIssues(lower, vm, Issue(Low, NicKind, true));
    InAllIssues(lower, vm, Issue(Medium, NicKind, true));
  }

  /** The place of a category in the order of the checks. */
  function Rank(c: Category): nat {
    match c
    case Os => 0 case Cpu => 1 case Memory => 2 case DiskSpace => 3 case Network => 4
    case Firmware => 5 case Tools => 6 case Controller => 7 case NicKind => 8
  }

  ghost predicate Ranked(issues: seq<Issue>, from: nat, to: nat) {
    && (forall i :: 0 <= i < |issues| ==> from <= Rank(issues[i].category) <= to)
    && (forall i, j :: 0 <= i < j < |issues| ==> Rank(issues[i].category) <= Rank(issues[j].category))
  }

  lemma RankedConcat(a: seq<Issue>, b: seq<Issue>, from: nat, mid: nat, to: nat)
    requires Ranked(a, from, mid) && Ranked(b, to, to) && from <= mid <= to
    ensures Ranked(a + b, from, to)
  {
  }

  lemma SameRank(issues: seq<Issue>, r: nat)
    requires forall x :: x in issues ==> Rank(x.category) == r
    ensures Ranked(issues, r, r)
  {
    assert forall i :: 0 <= i < |issues| ==> issues[i] in issues;
  }

  lemma RankedGuest(lower: Lower, vm: VM)
    ensures Ranked(PowerIssues(lower, vm), 0, 0) && Ranked(OsIssues(lower, vm), 0, 0)
    ensures Ranked(FirmwareIssues(lower, vm), 5, 5) && Ranked(SecureBootIssues(vm), 5, 5)
    ensures Ranked(ToolsIssues(lower, vm), 6, 6)
  {
  }

  lemma RankedHardware(vm: VM)
    ensures Ranked(CpuIssues(vm), 1, 1) && Ranked(MemoryIssues(vm), 2, 2)
    ensures Ranked(DiskIssues(vm), 3, 3) && Ranked(NetworkIssues(vm), 4, 4)
  {
  }

  lemma RankedSimple(lower: Lower, vm: VM)
    ensures Ranked(SimpleIssues(lower, vm), 0, 6)
  {
    RankedGuest(lower, vm);
    RankedHardware(vm);
    var parts := PowerIssues(lower, vm);
    RankedConcat(parts, OsIssues(lower, vm), 0, 0, 0);
    parts := parts + OsIssues(lower, vm);
    RankedConcat(parts, CpuIssues(vm), 0, 0, 1);
    parts := parts + CpuIssues(vm);
    RankedConcat(parts, MemoryIssues(vm), 0, 1, 2);
    parts := parts + MemoryIssues(vm);
    RankedConcat(parts, DiskIssues(vm), 0, 2, 3);
    parts := parts + DiskIssues(vm);
    RankedConcat(parts, NetworkIssues(vm), 0, 3, 4);
    parts := parts + NetworkIssues(vm);
    RankedConcat(parts, FirmwareIssues(lower, vm), 0, 4, 5);
    parts := parts + FirmwareIssues(lower, vm);
    RankedConcat(parts, SecureBootIssues(vm), 0, 5, 5);
    parts := parts + SecureBootIssues(vm);
    RankedConcat(parts, ToolsIssues(lower, vm), 0, 5, 6);
  }

  lemma RankedDevices(lower: Lower, vm: VM)
    ensures Ranked(PerKind(ControllerKinds(lower, vm), ControllerIssue), 7, 7)
    ensures Ranked(PerKind(NicKinds(NicsOf(vm)), NicIssue), 8, 8)
  {
    DeviceIssues(lower, vm);
    SameRank(PerKind(ControllerKinds(lower, vm), ControllerIssue), 7);
    SameRank(PerKind(NicKinds(NicsOf(vm)), NicIssue), 8);
  }

  /** Issues come in the order of the checks. */
  lemma IssuesInOrder(lower: Lower, vm: VM)
    ensures Ranked(Assess(lower, vm).issues, 0, 8)
  {
    var controllers := PerKind(ControllerKinds(lower, vm), ControllerIssue);
    RankedSimple(lower, vm);
    RankedDevices(lower, vm);
    RankedConcat(SimpleIssues(lower, vm), controllers, 0, 6, 7);
    RankedConcat(SimpleIssues(lower, vm) + controllers, PerKind(NicKinds(NicsOf(vm)), NicIssue), 0, 7, 8);
  }

  /** The same VM with other controllers and NICs. */
  function Refit(vm: VM, controllers: seq<string>, nics: seq<Nic>): VM {
    vm.(controllers := controllers,
        hardware := if vm.hardware.None? then None else Some(vm.hardware.value.(nics := nics)))
  }

  lemma RefitCounts(lower: Lower, vm: VM, controllers: seq<string>, nics: seq<Nic>)
    requires "ide" in ControllerKinds(lower, vm) <==> "ide" in ControllerKinds(lower, Refit(vm, controllers, nics))
    ensures Criticals(lower, Refit(vm, controllers, nics)) == Criticals(lower, vm)
    ensures Highs(lower, Refit(vm, controllers, nics)) == Highs(lower, vm)
  {
  }

  /** Reordering or repeating controllers, and any change of the NICs, leaves score and verdict alone. */
  lemma OnlyControllerKindsMatter(lower: Lower, vm: VM, controllers: seq<string>, nics: seq<Nic>)
    requires forall k :: k in ControllerKinds(lower, vm) <==> k in ControllerKinds(lower, Refit(vm, controllers, nics))
    ensures Assess(lower, Refit(vm, controllers, nics)).score == Assess(lower, vm).score
    ensures Assess(lower, Refit(vm, controllers, nics)).compatible == Assess(lower, vm).compatible
  {
    RefitCounts(lower, vm, controllers, nics);
    ScoreFormula(lower, vm);
    ScoreFormula(lower, Refit(vm, controllers, nics));
  }

  // ---------------------------------------------------------------------
  // The evaluation as code
  // ---------------------------------------------------------------------

  /** One turn of a device loop: the issue of a kind is added when the kind is seen for the first time. */
  method ReportOnce(r: seq<Issue>, seen: set<string>, kind: string, issue: string -> seq<Issue>,
                    ghost before: seq<Issue>, ghost kinds: seq<string>)
    returns (r': seq<Issue>, seen': set<string>)
    requires r == before + PerKind(kinds, issue) && seen == set k | k in kinds
    ensures r' == before + PerKind(kinds + [kind], issue) && seen' == set k | k in kinds + [kind]
  {
    PerKindNext(before, kinds, kind, issue);
    r', seen' := r, seen;
    if kind !in seen {
      seen' := seen + {kind};
      r' := r + issue(kind);
    }
  }

  /** `_check_disk_controllers`: the loop with its set of kinds already seen. */
  method CheckDiskControllers(lower: Lower, vm: VM, issues: seq<Issue>) returns (r: seq<Issue>)
    ensures r == issues + PerKind(ControllerKinds(lower, vm), ControllerIssue)
  {
    r := issues;
    var seen: set<string> := {};
    ghost var kinds := ControllerKinds(lower, vm);
    var i := 0;
    while i < |vm.controllers|
      invariant 0 <= i <= |vm.controllers|
      invariant seen == set k | k in kinds[..i]
      invariant r == issues + PerKind(kinds[..i], ControllerIssue)
    {
      var kind := lower(vm.controllers[i]);
      NextPrefix(kinds, i);
      r, seen := ReportOnce(r, seen, kind, ControllerIssue, issues, kinds[..i]);
      i := i + 1;
    }
    WholePrefix(kinds);
  }

  /** `_check_nic_types`. */
  method CheckNicTypes(nics: seq<Nic>, issues: seq<Issue>) returns (r: seq<Issue>)
    ensures r == issues + PerKind(NicKinds(nics), NicIssue)
  {
    r := issues;
    var seen: set<string> := {};
    ghost var kinds: seq<string> := [];
    var i := 0;
    while i < |nics|
      invariant 0 <= i <= |nics|
      invariant kinds == NicKindsUpTo(nics, i) && seen == set k | k in kinds
      invariant r == issues + PerKind(kinds, NicIssue)
    {
      if Present(nics[i].nicType) {
        var kind := nics[i].nicType.value;
        r, seen := ReportOnce(r, seen, kind, NicIssue, issues, kinds);
        kinds := kinds + [kind];
      }
      i := i + 1;
    }
  }

  /** The scoring loop of `evaluate`. */
  method ScoreIssues(issues: seq<Issue>) returns (score: int, hasCritical: bool)
    ensures score == StepScore(issues)
    ensures hasCritical <==> Count(issues, Critical) > 0
  {
    score, hasCritical := 100, false;
    var i := 0;
    while i < |issues|
      invariant 0 <= i <= |issues|
      invariant score == StepScore(issues[..i])
      invariant hasCritical <==> Count(issues[..i], Critical) > 0
    {
      PrefixOfPrefix(issues, i + 1, i);
      if !issues[i].compatible {
        score := Max(0, score + Weight(issues[i].severity));
        if issues[i].severity.Critical? {
          hasCritical := true;
        }
      }
      i := i + 1;
    }
    WholePrefix(issues);
  }

  /** `evaluate`, stated by its closed form. */
  method Evaluate(lower: Lower, vm: VM) returns (r: Assessment)
    ensures r == Assess(lower, vm)
    ensures r.score == Max(0, 100 - 30 * Criticals(lower, vm) - 20 * Highs(lower, vm))
    ensures r.compatible <==> Criticals(lower, vm) == 0 && Highs(lower, vm) <= 2
  {
    var issues := SimpleIssues(lower, vm);
    issues := CheckDiskControllers(lower, vm, issues);
    issues := CheckNicTypes(NicsOf(vm), issues);
    var score, hasCritical := ScoreIssues(issues);
    r := Assessment(score >= 50 && !hasCritical, score, issues);
    ScoreFormula(lower, vm);
  }
}
