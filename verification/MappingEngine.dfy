/**
 Mapping a VMware VM to OpenStack resources: the flavor at the least weighted distance, networks by name,
 volumes by disk.  Distances are real numbers; the square root is any function that satisfies `IsSqrt`.
*/
module MappingEngine {
  import opened Prelude
  import opened Inventory

  datatype Flavor = Flavor(
    id: Option<string>, name: Option<string>, vcpus: Option<int>, ram: Option<int>, disk: Option<int>)

  /** What the VM needs: vCPUs, memory and the sum of its disks. */
  datatype Target = Target(cpu: int, ram: int, disk: int)

  /** The largest value of each field over the catalog, 1 where that is 0. */
  datatype Scale = Scale(cpu: int, ram: int, disk: int)

  datatype FlavorMatch = FlavorMatch(
    flavorId: string, vcpus: int, ram: int, disk: int, score: real, overprovisioned: bool, underprovisioned: bool)

  /** `max()` of an empty sequence: no flavor of the catalog has that field. */
  datatype Error = ValueError | CatalogError(message: string)

  predicate Complete(f: Flavor) {
    f.vcpus.Some? && f.ram.Some? && f.disk.Some?
  }

  // ---------------------------------------------------------------------
  // Distances
  // ---------------------------------------------------------------------

  function Norm(target: int, value: int, max: int): real
    requires max != 0
  {
    (target - value) as real / max as real
  }

  predicate Usable(sc: Scale) {
    sc.cpu != 0 && sc.ram != 0 && sc.disk != 0
  }

  /** The weighted sum of squares under the root. */
  function Square(t: Target, sc: Scale, f: Flavor): real
    requires Usable(sc)
  {
    if !Complete(f) then 0.0 else
    var c, r := Norm(t.cpu, f.vcpus.value, sc.cpu), Norm(t.ram, f.ram.value, sc.ram);
    var d := Norm(t.disk, f.disk.value, sc.disk);
    0.4 * (c * c) + 0.4 * (r * r) + 0.2 * (d * d)
  }

  predicate Under(t: Target, f: Flavor) {
    Complete(f) && (f.vcpus.value < t.cpu || f.ram.value < t.ram || f.disk.value < t.disk)
  }

  predicate Fits(t: Target, f: Flavor) {
    Complete(f) && f.vcpus.value >= t.cpu && f.ram.value >= t.ram && f.disk.value >= t.disk
  }

  predicate Exact(t: Target, f: Flavor) {
    Complete(f) && f.vcpus.value == t.cpu && f.ram.value == t.ram && f.disk.value == t.disk
  }

  ghost predicate IsSqrt(sqrt: real -> real) {
    forall x :: x >= 0.0 ==> sqrt(x) >= 0.0 && sqrt(x) * sqrt(x) == x
  }

  /** The factor on the distance of an under-provisioned flavor. */
  function Penalty(under: bool): real {
    if under then 1.5 else 1.0
  }

  function SquaredPenalty(under: bool): real {
    if under then 2.25 else 1.0
  }

  function Distance(sqrt: real -> real, t: Target, sc: Scale, f: Flavor): real
    requires Usable(sc)
  {
    sqrt(Square(t, sc, f)) * Penalty(Under(t, f))
  }

  /** The same comparison without roots: the penalty factor 1.5 becomes 2.25. */
  function SquaredDistance(t: Target, sc: Scale, f: Flavor): real
    requires Usable(sc)
  {
    Square(t, sc, f) * SquaredPenalty(Under(t, f))
  }

  // ---------------------------------------------------------------------
  // The first minimum
  // ---------------------------------------------------------------------

  /** `i` is the first complete flavor whose key is least. */
  ghost predicate FirstLeast(key: Flavor -> real, flavors: seq<Flavor>, i: nat) {
    && i < |flavors| && Complete(flavors[i])
    && (forall j :: 0 <= j < |flavors| && Complete(flavors[j]) ==> key(flavors[i]) <= key(flavors[j]))
    && (forall j :: 0 <= j < i && Complete(flavors[j]) ==> key(flavors[i]) < key(flavors[j]))
  }

  /** The scan of the catalog: the first minimum, or None when no flavor is complete. */
  method ScanCatalog(key: Flavor -> real, flavors: seq<Flavor>) returns (best: Option<nat>)
    ensures best.None? <==> forall j :: 0 <= j < |flavors| ==> !Complete(flavors[j])
    ensures best.Some? ==> FirstLeast(key, flavors, best.value)
  {
    best := None;
    var i := 0;
    while i < |flavors|
      invariant 0 <= i <= |flavors|
      invariant best.None? <==> forall j :: 0 <= j < i ==> !Complete(flavors[j])
      invariant best.Some? ==> best.value < i && FirstLeast(key, flavors[..i], best.value)
    {
      if Complete(flavors[i]) && (best.None? || key(flavors[i]) < key(flavors[best.value])) {
        best := Some(i);
      }
      i := i + 1;
    }
    WholePrefix(flavors);
  }

  lemma FirstLeastUnique(key: Flavor -> real, other: Flavor -> real, flavors: seq<Flavor>, i: nat, j: nat)
    requires forall f, g :: key(f) < key(g) <==> other(f) < other(g)
    requires FirstLeast(key, flavors, i) && FirstLeast(other, flavors, j)
    ensures i == j
  {
  }

  lemma SquareOrder(x: real, y: real)
    requires x >= 0.0 && y >= 0.0
    ensures x < y <==> x * x < y * y
  {
    var xx, xy, yy := x * x, x * y, y * y;
    if x < y {
      assert xx <= xy;
      assert xy < yy;
    } else {
      assert yy <= xy;
      assert xy <= xx;
    }
  }

  lemma SquareNonNegative(t: Target, sc: Scale, f: Flavor)
    requires Usable(sc)
    ensures Square(t, sc, f) >= 0.0
  {
    if Complete(f) {
      var c, r := Norm(t.cpu, f.vcpus.value, sc.cpu), Norm(t.ram, f.ram.value, sc.ram);
      var d := Norm(t.disk, f.disk.value, sc.disk);
      assert c * c >= 0.0 && r * r >= 0.0 && d * d >= 0.0;
    }
  }

  lemma PenalisedRoot(sqrt: real -> real, q: real, under: bool)
    requires IsSqrt(sqrt) && q >= 0.0
    ensures sqrt(q) * Penalty(under) >= 0.0
    ensures (sqrt(q) * Penalty(under)) * (sqrt(q) * Penalty(under)) == q * SquaredPenalty(under)
  {
    var root := sqrt(q);
    assert root >= 0.0 && root * root == q;
    assert (root * 1.5) * (root * 1.5) == (root * root) * 2.25;
  }

  lemma PenalisedOrder(sqrt: real -> real, p: real, pUnder: bool, q: real, qUnder: bool)
    requires IsSqrt(sqrt) && p >= 0.0 && q >= 0.0
    ensures sqrt(p) * Penalty(pUnder) < sqrt(q) * Penalty(qUnder) <==>
            p * SquaredPenalty(pUnder) < q * SquaredPenalty(qUnder)
  {
    PenalisedRoot(sqrt, p, pUnder);
    PenalisedRoot(sqrt, q, qUnder);
    SquareOrder(sqrt(p) * Penalty(pUnder), sqrt(q) * Penalty(qUnder));
  }

  lemma DistanceSquared(sqrt: real -> real, t: Target, sc: Scale, f: Flavor)
    requires IsSqrt(sqrt) && Usable(sc)
    ensures Distance(sqrt, t, sc, f) >= 0.0
    ensures Distance(sqrt, t, sc, f) * Distance(sqrt, t, sc, f) == SquaredDistance(t, sc, f)
  {
    SquareNonNegative(t, sc, f);
    PenalisedRoot(sqrt, Square(t, sc, f), Under(t, f));
  }

  lemma SameOrder(sqrt: real -> real, t: Target, sc: Scale, f: Flavor, g: Flavor)
    requires IsSqrt(sqrt) && Usable(sc)
    ensures Distance(sqrt, t, sc, f) < Distance(sqrt, t, sc, g) <==>
            SquaredDistance(t, sc, f) < SquaredDistance(t, sc, g)
  {
    SquareNonNegative(t, sc, f);
    SquareNonNegative(t, sc, g);
    PenalisedOrder(sqrt, Square(t, sc, f), Under(t, f), Square(t, sc, g), Under(t, g));
  }

  /** Choosing by squared distances with factor 2.25 is choosing by penalised distance, on every catalog. */
  lemma SqrtFreeChoice(sqrt: real -> real, t: Target, sc: Scale, flavors: seq<Flavor>, i: nat, j: nat)
    requires IsSqrt(sqrt) && Usable(sc)
    requires FirstLeast(f => Distance(sqrt, t, sc, f), flavors, i)
    requires FirstLeast(f => SquaredDistance(t, sc, f), flavors, j)
    ensures i == j
  {
    forall f: Flavor, g: Flavor
      ensures Distance(sqrt, t, sc, f) < Distance(sqrt, t, sc, g) <==>
              SquaredDistance(t, sc, f) < SquaredDistance(t, sc, g)
    {
      SameOrder(sqrt, t, sc, f, g);
    }
    FirstLeastUnique(f => Distance(sqrt, t, sc, f), f => SquaredDistance(t, sc, f), flavors, i, j);
  }

  // ---------------------------------------------------------------------
  // The scale of a catalog
  // ---------------------------------------------------------------------

  datatype Field = Vcpus | Ram | DiskGb

  function Get(f: Flavor, field: Field): Option<int> {
    match field case Vcpus => f.vcpus case Ram => f.ram case DiskGb => f.disk
  }

  /** The values of a field over the flavors that have it. */
  function Column(flavors: seq<Flavor>, field: Field): seq<int> {
    if flavors == [] then [] else
    var n := |flavors| - 1;
    if Get(flavors[n], field).Some? then Column(flavors[..n], field) + [Get(flavors[n], field).value]
    else Column(flavors[..n], field)
  }

  function MaxOf(values: seq<int>): (m: int)
    requires values != []
    ensures m in values && forall k :: 0 <= k < |values| ==> values[k] <= m
  {
    var n := |values| - 1;
    if n == 0 then values[0] else
    var rest := MaxOf(values[..n]);
    if values[n] > rest then values[n] else rest
  }

  function OrOne(m: int): int {
    if m == 0 then 1 else m
  }

  function ScaleOf(flavors: seq<Flavor>): (r: Result<Scale, Error>)
    ensures r.Ok? ==> Usable(r.value)
  {
    var cpus, rams, disks := Column(flavors, Vcpus), Column(flavors, Ram), Column(flavors, DiskGb);
    if cpus == [] || rams == [] || disks == [] then Err(ValueError)
    else Ok(Scale(OrOne(MaxOf(cpus)), OrOne(MaxOf(rams)), OrOne(MaxOf(disks))))
  }

  lemma {:induction false} ColumnContains(flavors: seq<Flavor>, field: Field, i: nat)
    requires i < |flavors| && Get(flavors[i], field).Some?
    ensures Get(flavors[i], field).value in Column(flavors, field)
  {
    var n := |flavors| - 1;
    if i < n {
      ColumnContains(flavors[..n], field, i);
    }
  }

  /** No value of a complete flavor exceeds the scale, and a catalog with a complete flavor has a scale. */
  lemma ScaleCovers(flavors: seq<Flavor>, i: nat)
    requires i < |flavors| && Complete(flavors[i])
    ensures ScaleOf(flavors).Ok?
    ensures var sc, f := ScaleOf(flavors).value, flavors[i];
            f.vcpus.value <= sc.cpu && f.ram.value <= sc.ram && f.disk.value <= sc.disk
  {
    ColumnContains(flavors, Vcpus, i);
    ColumnContains(flavors, Ram, i);
    ColumnContains(flavors, DiskGb, i);
  }

  // ---------------------------------------------------------------------
  // What the choice means
  // ---------------------------------------------------------------------

  /** Flavor `i` is what `_match_flavor` picks for `t`. */
  ghost predicate Chosen(sqrt: real -> real, t: Target, flavors: seq<Flavor>, i: nat) {
    && ScaleOf(flavors).Ok?
    && FirstLeast(f => Distance(sqrt, t, ScaleOf(flavors).value, f), flavors, i)
  }

  function ScoreOf(distance: real): real {
    if 1.0 - distance > 0.0 then 1.0 - distance else 0.0
  }

  ghost predicate NonNegative(t: Target) {
    t.cpu >= 0 && t.ram >= 0 && t.disk >= 0
  }

  lemma RatioWithinOne(a: real, m: real)
    requires m > 0.0 && -m <= a <= 0.0
    ensures -1.0 <= a / m <= 0.0
  {
    assert (a / m) * m == a;
  }

  lemma NormWithinOne(target: int, value: int, max: int)
    requires 0 <= target <= value <= max && max > 0
    ensures Norm(target, value, max) * Norm(target, value, max) <= 1.0
  {
    var n := Norm(target, value, max);
    RatioWithinOne((target - value) as real, max as real);
    assert n * n == (-n) * (-n);
    SquareOrder(1.0, -n);
  }

  lemma FitWithinOne(t: Target, flavors: seq<Flavor>, j: nat)
    requires NonNegative(t) && j < |flavors| && Fits(t, flavors[j])
    ensures ScaleOf(flavors).Ok? && Square(t, ScaleOf(flavors).value, flavors[j]) <= 1.0
  {
    ScaleCovers(flavors, j);
    var sc, f := ScaleOf(flavors).value, flavors[j];
    NormWithinOne(t.cpu, f.vcpus.value, sc.cpu);
    NormWithinOne(t.ram, f.ram.value, sc.ram);
    NormWithinOne(t.disk, f.disk.value, sc.disk);
  }

  /** If some flavor fits, the best distance is at most 1, so the clamp of the score does nothing. */
  lemma ClampInactiveWhenSomethingFits(sqrt: real -> real, t: Target, flavors: seq<Flavor>, i: nat, j: nat)
    requires IsSqrt(sqrt) && NonNegative(t) && Chosen(sqrt, t, flavors, i)
    requires j < |flavors| && Fits(t, flavors[j])
    ensures var d := Distance(sqrt, t, ScaleOf(flavors).value, flavors[i]);
            0.0 <= d <= 1.0 && ScoreOf(d) == 1.0 - d
  {
    var sc := ScaleOf(flavors).value;
    FitWithinOne(t, flavors, j);
    DistanceSquared(sqrt, t, sc, flavors[j]);
    DistanceSquared(sqrt, t, sc, flavors[i]);
    assert !Under(t, flavors[j]);
    SquareOrder(1.0, Distance(sqrt, t, sc, flavors[j]));
  }

  ghost predicate Dominates(g: Flavor, f: Flavor) {
    && Complete(f) && Complete(g)
    && g.vcpus.value <= f.vcpus.value && g.ram.value <= f.ram.value && g.disk.value <= f.disk.value
    && (g.vcpus.value < f.vcpus.value || g.ram.value < f.ram.value || g.disk.value < f.disk.value)
  }

  lemma NormGrows(target: int, small: int, large: int, max: int)
    requires target <= small <= large && max != 0
    ensures var a, b := Norm(target, small, max), Norm(target, large, max);
            a * a <= b * b && (small < large ==> a * a < b * b)
  {
    var m := max as real;
    var a, b := Norm(target, small, max), Norm(target, large, max);
    assert a * m == (target - small) as real && b * m == (target - large) as real;
    var x, y := (small - target) as real, (large - target) as real;
    assert (a * a) * (m * m) == x * x && (b * b) * (m * m) == y * y by {
      assert (a * m) * (a * m) == x * x && (b * m) * (b * m) == y * y;
    }
    assert m * m > 0.0;
    SquareOrder(x, y);
    SquareOrder(y, x);
    if a * a > b * b {
      assert (a * a) * (m * m) > (b * b) * (m * m);
    }
    if small < large && a * a >= b * b {
      assert (a * a) * (m * m) >= (b * b) * (m * m);
    }
  }

  lemma SmallerFitIsCloser(t: Target, sc: Scale, g: Flavor, f: Flavor)
    requires Usable(sc) && Fits(t, g) && Fits(t, f) && Dominates(g, f)
    ensures Square(t, sc, g) < Square(t, sc, f)
  {
    NormGrows(t.cpu, g.vcpus.value, f.vcpus.value, sc.cpu);
    NormGrows(t.ram, g.ram.value, f.ram.value, sc.ram);
    NormGrows(t.disk, g.disk.value, f.disk.value, sc.disk);
  }

  /** A chosen flavor that fits wastes nothing: no fitting flavor is smaller in one field and no larger in
      the others. */
  lemma ChosenFitNotDominated(sqrt: real -> real, t: Target, flavors: seq<Flavor>, i: nat, j: nat)
    requires IsSqrt(sqrt) && Chosen(sqrt, t, flavors, i) && Fits(t, flavors[i])
    requires j < |flavors| && Fits(t, flavors[j])
    ensures !Dominates(flavors[j], flavors[i])
  {
    if Dominates(flavors[j], flavors[i]) {
      var sc := ScaleOf(flavors).value;
      SmallerFitIsCloser(t, sc, flavors[j], flavors[i]);
      SameOrder(sqrt, t, sc, flavors[j], flavors[i]);
    }
  }

  /** An under-provisioned choice means every fitting flavor is at least one and a half times as far. */
  lemma UnderOnlyWhenMuchCloser(sqrt: real -> real, t: Target, flavors: seq<Flavor>, i: nat, j: nat)
    requires IsSqrt(sqrt) && Chosen(sqrt, t, flavors, i) && Under(t, flavors[i])
    requires j < |flavors| && Fits(t, flavors[j])
    ensures var sc := ScaleOf(flavors).value;
            1.5 * sqrt(Square(t, sc, flavors[i])) <= sqrt(Square(t, sc, flavors[j]))
  {
    assert !Under(t, flavors[j]);
    var sc := ScaleOf(flavors).value;
    assert Distance(sqrt, t, sc, flavors[i]) <= Distance(sqrt, t, sc, flavors[j]);
  }

  lemma NormZero(target: int, value: int, max: int)
    requires max != 0
    ensures var n := Norm(target, value, max); n * n >= 0.0 && (n * n == 0.0 <==> target == value)
  {
    var n := Norm(target, value, max);
    assert n * max as real == (target - value) as real;
  }

  lemma ZeroOnlyWhenExact(sqrt: real -> real, t: Target, sc: Scale, f: Flavor)
    requires IsSqrt(sqrt) && Usable(sc) && Complete(f)
    ensures Distance(sqrt, t, sc, f) == 0.0 <==> Exact(t, f)
  {
    NormZero(t.cpu, f.vcpus.value, sc.cpu);
    NormZero(t.ram, f.ram.value, sc.ram);
    NormZero(t.disk, f.disk.value, sc.disk);
    DistanceSquared(sqrt, t, sc, f);
    SquareOrder(0.0, Distance(sqrt, t, sc, f));
    assert Square(t, sc, f) == 0.0 <==> Exact(t, f);
  }

  /** The unrounded score is 1 exactly when the catalog has a flavor that matches the VM exactly. */
  lemma PerfectScoreIffExact(sqrt: real -> real, t: Target, flavors: seq<Flavor>, i: nat)
    requires IsSqrt(sqrt) && Chosen(sqrt, t, flavors, i)
    ensures ScoreOf(Distance(sqrt, t, ScaleOf(flavors).value, flavors[i])) == 1.0 <==>
            exists j :: 0 <= j < |flavors| && Exact(t, flavors[j])
  {
    var sc := ScaleOf(flavors).value;
    ZeroOnlyWhenExact(sqrt, t, sc, flavors[i]);
    DistanceSquared(sqrt, t, sc, flavors[i]);
    forall j | 0 <= j < |flavors| && Exact(t, flavors[j])
      ensures Distance(sqrt, t, sc, flavors[i]) == 0.0
    {
      ZeroOnlyWhenExact(sqrt, t, sc, flavors[j]);
    }
  }

  // ---------------------------------------------------------------------
  // Networks and disks
  // ---------------------------------------------------------------------

  datatype OsNetwork = OsNetwork(id: Option<string>, name: Option<string>)

  datatype MatchType = ExactName | CaseInsensitive | NotFound

  datatype NetworkMapping = NetworkMapping(vmNetwork: string, network: Option<OsNetwork>, matchType: MatchType)

  datatype DiskMapping = DiskMapping(diskLabel: string, sizeGb: int, volumeType: string, bootable: bool)

  datatype VmMapping = VmMapping(flavor: Option<FlavorMatch>, networks: seq<NetworkMapping>, disks: seq<DiskMapping>)

  predicate SameName(vmNet: string, net: OsNetwork) {
    net.name == Some(vmNet)
  }

  predicate SameNameAnyCase(lower: Lower, vmNet: string, net: OsNetwork) {
    net.name.Some? && net.name.value != "" && lower(net.name.value) == lower(vmNet)
  }

  /** `k` is the first index where `p` holds. */
  ghost predicate FirstIndex(p: OsNetwork -> bool, nets: seq<OsNetwork>, k: nat) {
    k < |nets| && p(nets[k]) && forall j :: 0 <= j < k ==> !p(nets[j])
  }

  function FirstWhere(p: OsNetwork -> bool, nets: seq<OsNetwork>): (k: Option<nat>)
    ensures k.Some? ==> FirstIndex(p, nets, k.value)
    ensures k.None? ==> forall j :: 0 <= j < |nets| ==> !p(nets[j])
  {
    if nets == [] then None else
    var n := |nets| - 1;
    var k := FirstWhere(p, nets[..n]);
    if k.Some? then k else if p(nets[n]) then Some(n) else None
  }

  /** The mapping of a port group. */
  function NetworkFor(lower: Lower, vmNet: string, nets: seq<OsNetwork>): NetworkMapping {
    var exact := FirstWhere(net => SameName(vmNet, net), nets);
    var loose := FirstWhere(net => SameNameAnyCase(lower, vmNet, net), nets);
    if exact.Some? then NetworkMapping(vmNet, Some(nets[exact.value]), ExactName)
    else if loose.Some? then NetworkMapping(vmNet, Some(nets[loose.value]), CaseInsensitive)
    else NetworkMapping(vmNet, None, NotFound)
  }

  /** Network `k` is the first whose name is the given one. */
  ghost predicate FirstNamed(name: string, nets: seq<OsNetwork>, k: nat) {
    k < |nets| && nets[k].name == Some(name) && forall j :: 0 <= j < k ==> nets[j].name != Some(name)
  }

  /** The names are the same in lower case, and there is a name. */
  ghost predicate AlikeInLowerCase(lower: Lower, name: string, net: OsNetwork) {
    net.name.Some? && net.name.value != "" && lower(net.name.value) == lower(name)
  }

  ghost predicate FirstAlike(lower: Lower, name: string, nets: seq<OsNetwork>, k: nat) {
    && k < |nets| && AlikeInLowerCase(lower, name, nets[k])
    && forall j :: 0 <= j < k ==> !AlikeInLowerCase(lower, name, nets[j])
  }

  /** The mapping of a port group: by its own name, else by its name up to case, else not at all. */
  ghost predicate NetworkRule(lower: Lower, name: string, nets: seq<OsNetwork>, m: NetworkMapping) {
    && m.vmNetwork == name
    && match m.matchType
       case ExactName => exists k: nat :: FirstNamed(name, nets, k) && m.network == Some(nets[k])
       case CaseInsensitive =>
         && (forall j :: 0 <= j < |nets| ==> nets[j].name != Some(name))
         && exists k: nat :: FirstAlike(lower, name, nets, k) && m.network == Some(nets[k])
       case NotFound =>
         && m.network == None
         && forall j :: 0 <= j < |nets| ==> nets[j].name != Some(name) && !AlikeInLowerCase(lower, name, nets[j])
  }

  lemma NetworkForByRule(lower: Lower, name: string, nets: seq<OsNetwork>)
    ensures NetworkRule(lower, name, nets, NetworkFor(lower, name, nets))
  {
    var exact := FirstWhere(net => SameName(name, net), nets);
    var loose := FirstWhere(net => SameNameAnyCase(lower, name, net), nets);
    if exact.Some? {
      assert forall j :: 0 <= j < exact.value ==> !SameName(name, nets[j]);
      assert FirstNamed(name, nets, exact.value);
    } else {
      assert forall j :: 0 <= j < |nets| ==> !SameName(name, nets[j]);
      if loose.Some? {
        assert forall j :: 0 <= j < loose.value ==> !SameNameAnyCase(lower, name, nets[j]);
        assert FirstAlike(lower, name, nets, loose.value);
      } else {
        assert forall j :: 0 <= j < |nets| ==> !SameNameAnyCase(lower, name, nets[j]);
      }
    }
  }

  /** NIC by NIC, in order. */
  lemma NetworksByRule(lower: Lower, nics: seq<Nic>, nets: seq<OsNetwork>)
    ensures var ms := NetworksMapped(lower, nics, nets);
            |ms| == |nics| && forall k :: 0 <= k < |nics| ==> NetworkRule(lower, nics[k].networkName, nets, ms[k])
  {
    forall k | 0 <= k < |nics|
      ensures NetworkRule(lower, nics[k].networkName, nets, NetworksMapped(lower, nics, nets)[k])
    {
      NetworkForByRule(lower, nics[k].networkName, nets);
    }
  }

  /** A port group gets the first network of exactly its name, wherever that stands; only without one the first
      equal up to case; and nothing exactly when there is neither. */
  lemma NetworkMatchRule(lower: Lower, vmNet: string, nets: seq<OsNetwork>)
    ensures var m := NetworkFor(lower, vmNet, nets);
            && (m.network.None? <==> m.matchType.NotFound?)
            && (m.matchType.NotFound? <==>
                forall j :: 0 <= j < |nets| ==> !SameName(vmNet, nets[j]) && !SameNameAnyCase(lower, vmNet, nets[j]))
            && (m.matchType.ExactName? <==> exists j :: 0 <= j < |nets| && SameName(vmNet, nets[j]))
            && (m.matchType.ExactName? ==>
                  exists k: nat :: FirstIndex(net => SameName(vmNet, net), nets, k) && m.network == Some(nets[k]))
            && (m.matchType.CaseInsensitive? ==>
                  exists k: nat ::
                    FirstIndex(net => SameNameAnyCase(lower, vmNet, net), nets, k) && m.network == Some(nets[k]))
  {
    var exact := FirstWhere(net => SameName(vmNet, net), nets);
    if exact.Some? {
      assert SameName(vmNet, nets[exact.value]);
    }
  }

  /** One search loop with its break. */
  method FindFirst(p: OsNetwork -> bool, nets: seq<OsNetwork>) returns (k: Option<nat>)
    ensures k == FirstWhere(p, nets)
  {
    k := None;
    var i := 0;
    while i < |nets|
      invariant 0 <= i <= |nets| && FirstWhere(p, nets[..i]).None?
    {
      PrefixOfPrefix(nets, i + 1, i);
      if p(nets[i]) {
        FirstWherePrefix(p, nets, i + 1);
        return Some(i);
      }
      i := i + 1;
    }
    WholePrefix(nets);
  }

  lemma {:induction false} FirstWherePrefix(p: OsNetwork -> bool, nets: seq<OsNetwork>, i: nat)
    requires i <= |nets| && FirstWhere(p, nets[..i]).Some?
    ensures FirstWhere(p, nets) == FirstWhere(p, nets[..i])
  {
    if i == |nets| {
      WholePrefix(nets);
    } else {
      var n := |nets| - 1;
      PrefixOfPrefix(nets, n, i);
      FirstWherePrefix(p, nets[..n], i);
    }
  }

  method MapNetwork(lower: Lower, vmNet: string, nets: seq<OsNetwork>) returns (m: NetworkMapping)
    ensures m == NetworkFor(lower, vmNet, nets)
  {
    var exact := FindFirst(net => SameName(vmNet, net), nets);
    if exact.Some? {
      return NetworkMapping(vmNet, Some(nets[exact.value]), ExactName);
    }
    var loose := FindFirst(net => SameNameAnyCase(lower, vmNet, net), nets);
    if loose.Some? {
      return NetworkMapping(vmNet, Some(nets[loose.value]), CaseInsensitive);
    }
    m := NetworkMapping(vmNet, None, NotFound);
  }

  function NetworksMapped(lower: Lower, nics: seq<Nic>, nets: seq<OsNetwork>): seq<NetworkMapping> {
    seq(|nics|, i requires 0 <= i < |nics| => NetworkFor(lower, nics[i].networkName, nets))
  }

  /** `_map_networks`: one mapping per NIC, in order. */
  method MapNetworks(lower: Lower, nics: seq<Nic>, nets: seq<OsNetwork>) returns (ms: seq<NetworkMapping>)
    ensures ms == NetworksMapped(lower, nics, nets)
  {
    ms := [];
    while |ms| < |nics|
      invariant |ms| <= |nics| && ms == NetworksMapped(lower, nics, nets)[..|ms|]
    {
      var m := MapNetwork(lower, nics[|ms|].networkName, nets);
      ms := ms + [m];
    }
  }

  function DisksMapped(disks: seq<Disk>): seq<DiskMapping> {
    seq(|disks|, i requires 0 <= i < |disks| =>
          DiskMapping(disks[i].diskLabel, disks[i].capacityGb,
                      if disks[i].thinProvisioned then "ceph-rbd" else "ceph", i == 0))
  }

  /** Disk by disk: its own label and size, the volume type by provisioning, the first one bootable. */
  lemma DisksByRule(disks: seq<Disk>)
    ensures var ms := DisksMapped(disks);
            |ms| == |disks| && forall k :: 0 <= k < |disks| ==>
              && ms[k].diskLabel == disks[k].diskLabel && ms[k].sizeGb == disks[k].capacityGb
              && (ms[k].bootable <==> k == 0)
              && (disks[k].thinProvisioned ==> ms[k].volumeType == "ceph-rbd")
              && (!disks[k].thinProvisioned ==> ms[k].volumeType == "ceph")
  {
  }

  /** `_map_disks`: one volume per disk, same size, the first one bootable. */
  method MapDisks(disks: seq<Disk>) returns (ms: seq<DiskMapping>)
    ensures ms == DisksMapped(disks)
  {
    ms := [];
    while |ms| < |disks|
      invariant |ms| <= |disks| && ms == DisksMapped(disks)[..|ms|]
    {
      var i := |ms|;
      var disk := disks[i];
      var volumeType := if !disk.thinProvisioned then "ceph" else "ceph-rbd";
      ms := ms + [DiskMapping(disk.diskLabel, disk.capacityGb, volumeType, i == 0)];
    }
  }

  // ---------------------------------------------------------------------
  // The engine with its memo
  // ---------------------------------------------------------------------

  /** What `_match_flavor` owes: nothing without hardware, catalog or complete flavor; the ValueError of `max`
      when a field is missing everywhere; else the chosen flavor with its score and its fit. */
  ghost predicate RightFlavor(
    sqrt: real -> real, hardware: Option<Hardware>, flavors: seq<Flavor>, r: Result<Option<FlavorMatch>, Error>)
  {
    if hardware.None? || flavors == [] then r == Ok(None)
    else if ScaleOf(flavors).Err? then r == Err(ValueError)
    else if forall j :: 0 <= j < |flavors| ==> !Complete(flavors[j]) then r == Ok(None)
    else
      && r.Ok? && r.value.Some?
      && var t := TargetOf(hardware.value);
         exists i :: Chosen(sqrt, t, flavors, i) && Describes(sqrt, t, flavors, i, r.value.value)
  }

  function TargetOf(h: Hardware): Target {
    Target(h.cpuCount, h.memoryMb, TotalDisk(h.disks))
  }

  ghost predicate Describes(sqrt: real -> real, t: Target, flavors: seq<Flavor>, i: nat, m: FlavorMatch)
    requires Chosen(sqrt, t, flavors, i)
  {
    var f := flavors[i];
    && m.flavorId == (if f.id.Some? then f.id.value else "")
    && m.vcpus == f.vcpus.value && m.ram == f.ram.value && m.disk == f.disk.value
    && m.score == ScoreOf(Distance(sqrt, t, ScaleOf(flavors).value, f))
    && m.overprovisioned == Fits(t, f) && m.underprovisioned == Under(t, f) && m.overprovisioned != m.underprovisioned
  }

  function Known<T>(cache: Option<seq<T>>): seq<T> {
    if cache.Some? then cache.value else []
  }

  // ---------------------------------------------------------------------
  // The choice without roots and fractions
  // ---------------------------------------------------------------------

  /** `d` is the largest of the values that are set, or 1 when that is 0. */
  ghost predicate Divisor(values: seq<Option<int>>, d: int) {
    exists k ::
      && 0 <= k < |values| && values[k].Some?
      && (forall j :: 0 <= j < |values| && values[j].Some? ==> values[j].value <= values[k].value)
      && d == if values[k].value == 0 then 1 else values[k].value
  }

  /** The weighted squares of the offsets over a common denominator. */
  function Effort(h: Hardware, f: Flavor, c: int, r: int, d: int): int
    requires Complete(f)
  {
    var cpu, ram, disk := h.cpuCount - f.vcpus.value, h.memoryMb - f.ram.value, TotalDisk(h.disks) - f.disk.value;
    var under := h.cpuCount > f.vcpus.value || h.memoryMb > f.ram.value || TotalDisk(h.disks) > f.disk.value;
    (2 * ((cpu * cpu) * (r * r) * (d * d)) + 2 * ((ram * ram) * (c * c) * (d * d)) + (disk * disk) * (c * c) * (r * r))
    * if under then 9 else 4
  }

  /** Among the flavors with all fields set, flavor `i` is the first of least effort. */
  ghost predicate LeastEffort(h: Hardware, flavors: seq<Flavor>, c: int, r: int, d: int, i: nat) {
    && i < |flavors| && Complete(flavors[i])
    && forall j :: 0 <= j < |flavors| && Complete(flavors[j]) ==>
         && Effort(h, flavors[i], c, r, d) <= Effort(h, flavors[j], c, r, d)
         && (j < i ==> Effort(h, flavors[i], c, r, d) < Effort(h, flavors[j], c, r, d))
  }

  lemma {:induction false} ColumnMembers(flavors: seq<Flavor>, field: Field, v: int)
    ensures v in Column(flavors, field) <==> exists k :: 0 <= k < |flavors| && Get(flavors[k], field) == Some(v)
  {
    if flavors != [] {
      var n := |flavors| - 1;
      ColumnMembers(flavors[..n], field, v);
      if k :| 0 <= k < |flavors| && Get(flavors[k], field) == Some(v) {
        assert k < n ==> flavors[..n][k] == flavors[k];
      }
    }
  }

  /** The values of one field, flavor by flavor. */
  function Values(flavors: seq<Flavor>, field: Field): seq<Option<int>> {
    seq(|flavors|, i requires 0 <= i < |flavors| =>
          match field case Vcpus => flavors[i].vcpus case Ram => flavors[i].ram case DiskGb => flavors[i].disk)
  }

  lemma DivisorOf(flavors: seq<Flavor>, field: Field)
    requires Column(flavors, field) != []
    ensures Divisor(Values(flavors, field), OrOne(MaxOf(Column(flavors, field))))
  {
    var m, values := MaxOf(Column(flavors, field)), Values(flavors, field);
    ColumnMembers(flavors, field, m);
    var k :| 0 <= k < |flavors| && Get(flavors[k], field) == Some(m);
    forall j | 0 <= j < |values| && values[j].Some?
      ensures values[j].value <= values[k].value
    {
      ColumnContains(flavors, field, j);
    }
    assert values[k].Some?;
  }

  lemma ScaleMeans(flavors: seq<Flavor>)
    requires ScaleOf(flavors).Ok?
    ensures var sc := ScaleOf(flavors).value;
            && Divisor(Values(flavors, Vcpus), sc.cpu) && Divisor(Values(flavors, Ram), sc.ram)
            && Divisor(Values(flavors, DiskGb), sc.disk)
  {
    DivisorOf(flavors, Vcpus);
    DivisorOf(flavors, Ram);
    DivisorOf(flavors, DiskGb);
  }

  lemma ClearDenominators(x: real, y: real, z: real, p: real, q: real, s: real)
    ensures (0.4 * x + 0.4 * y + 0.2 * z) * (5.0 * (p * q * s)) ==
            2.0 * ((x * p) * q * s) + 2.0 * ((y * q) * p * s) + (z * s) * p * q
  {
  }

  lemma NormCleared(target: int, value: int, max: int)
    requires max != 0
    ensures (Norm(target, value, max) * Norm(target, value, max)) * ((max * max) as real) ==
            ((target - value) * (target - value)) as real
  {
    var n, m := Norm(target, value, max), max as real;
    assert n * m == (target - value) as real;
    assert (n * n) * (m * m) == (n * m) * (n * m);
  }

  lemma RealProduct(a: int, b: int, c: int)
    ensures (a * b * c) as real == (a as real) * (b as real) * (c as real)
  {
    assert ((a * b) as real) == (a as real) * (b as real);
  }

  /** The common denominator of a scale. */
  function Common(sc: Scale): real {
    ((sc.cpu * sc.cpu) as real) * ((sc.ram * sc.ram) as real) * ((sc.disk * sc.disk) as real)
  }

  lemma CommonPositive(sc: Scale)
    requires Usable(sc)
    ensures Common(sc) > 0.0
  {
    var p, q, s := sc.cpu * sc.cpu, sc.ram * sc.ram, sc.disk * sc.disk;
    assert p > 0 && q > 0 && s > 0;
    assert (p as real) * (q as real) > 0.0;
  }

  lemma SquareCleared(h: Hardware, f: Flavor, sc: Scale)
    requires Usable(sc) && Complete(f)
    ensures var t := TargetOf(h);
            var a, b, e := t.cpu - f.vcpus.value, t.ram - f.ram.value, t.disk - f.disk.value;
            Square(t, sc, f) * (5.0 * Common(sc)) ==
            (2 * ((a * a) * (sc.ram * sc.ram) * (sc.disk * sc.disk))
             + 2 * ((b * b) * (sc.cpu * sc.cpu) * (sc.disk * sc.disk))
             + (e * e) * (sc.cpu * sc.cpu) * (sc.ram * sc.ram)) as real
  {
    var t := TargetOf(h);
    var a, b, e := t.cpu - f.vcpus.value, t.ram - f.ram.value, t.disk - f.disk.value;
    var x := Norm(t.cpu, f.vcpus.value, sc.cpu) * Norm(t.cpu, f.vcpus.value, sc.cpu);
    var y := Norm(t.ram, f.ram.value, sc.ram) * Norm(t.ram, f.ram.value, sc.ram);
    var z := Norm(t.disk, f.disk.value, sc.disk) * Norm(t.disk, f.disk.value, sc.disk);
    NormCleared(t.cpu, f.vcpus.value, sc.cpu);
    NormCleared(t.ram, f.ram.value, sc.ram);
    NormCleared(t.disk, f.disk.value, sc.disk);
    var p, q, s := sc.cpu * sc.cpu, sc.ram * sc.ram, sc.disk * sc.disk;
    WeightedSum(x, y, z, a * a, b * b, e * e, p, q, s);
  }

  lemma WeightedSum(x: real, y: real, z: real, a: int, b: int, e: int, p: int, q: int, s: int)
    requires x * (p as real) == a as real && y * (q as real) == b as real && z * (s as real) == e as real
    ensures (0.4 * x + 0.4 * y + 0.2 * z) * (5.0 * ((p as real) * (q as real) * (s as real))) ==
            (2 * (a * q * s) + 2 * (b * p * s) + e * p * q) as real
  {
    ClearDenominators(x, y, z, p as real, q as real, s as real);
    RealProduct(a, q, s);
    RealProduct(b, p, s);
    RealProduct(e, p, q);
  }

  lemma EffortCleared(h: Hardware, f: Flavor, sc: Scale)
    requires Usable(sc) && Complete(f)
    ensures SquaredDistance(TargetOf(h), sc, f) * (20.0 * Common(sc)) == Effort(h, f, sc.cpu, sc.ram, sc.disk) as real
  {
    SquareCleared(h, f, sc);
    var sq, k := Square(TargetOf(h), sc, f), Common(sc);
    assert (sq * 2.25) * (20.0 * k) == 9.0 * (sq * (5.0 * k));
    assert (sq * 1.0) * (20.0 * k) == 4.0 * (sq * (5.0 * k));
  }

  lemma ScaledOrder(x: real, y: real, k: real, xk: real, yk: real)
    requires k > 0.0 && x * k == xk && y * k == yk
    ensures x < y <==> xk < yk
  {
  }

  lemma ClearedOrder(x: real, y: real, k: real, xk: int, yk: int)
    requires k > 0.0 && x * k == xk as real && y * k == yk as real
    ensures x < y <==> xk < yk
  {
    ScaledOrder(x, y, k, xk as real, yk as real);
  }

  lemma SquaredOrder(h: Hardware, f: Flavor, g: Flavor, sc: Scale)
    requires Usable(sc) && Complete(f) && Complete(g)
    ensures SquaredDistance(TargetOf(h), sc, f) < SquaredDistance(TargetOf(h), sc, g) <==>
            Effort(h, f, sc.cpu, sc.ram, sc.disk) < Effort(h, g, sc.cpu, sc.ram, sc.disk)
  {
    CommonPositive(sc);
    EffortCleared(h, f, sc);
    EffortCleared(h, g, sc);
    ClearedOrder(SquaredDistance(TargetOf(h), sc, f), SquaredDistance(TargetOf(h), sc, g), 20.0 * Common(sc),
                 Effort(h, f, sc.cpu, sc.ram, sc.disk), Effort(h, g, sc.cpu, sc.ram, sc.disk));
  }

  /** Distances order flavors as efforts do. */
  lemma EffortOrder(sqrt: real -> real, h: Hardware, f: Flavor, g: Flavor, sc: Scale)
    requires IsSqrt(sqrt) && Usable(sc) && Complete(f) && Complete(g)
    ensures Distance(sqrt, TargetOf(h), sc, f) < Distance(sqrt, TargetOf(h), sc, g) <==>
            Effort(h, f, sc.cpu, sc.ram, sc.disk) < Effort(h, g, sc.cpu, sc.ram, sc.disk)
  {
    SameOrder(sqrt, TargetOf(h), sc, f, g);
    SquaredOrder(h, f, g, sc);
  }

  /** What a match says of the flavor and of the score, which is 1 minus the distance and never below 0. */
  ghost predicate MatchOf(h: Hardware, f: Flavor, c: int, r: int, d: int, m: FlavorMatch) {
    && Complete(f)
    && m.flavorId == (if f.id.Some? then f.id.value else "")
    && Some(m.vcpus) == f.vcpus && Some(m.ram) == f.ram && Some(m.disk) == f.disk
    && (m.underprovisioned <==>
        m.vcpus < h.cpuCount || m.ram < h.memoryMb || m.disk < TotalDisk(h.disks))
    && m.overprovisioned == !m.underprovisioned
    && ScoreOfEffort(m.score, Effort(h, f, c, r, d) as real, 20.0 * Common(Scale(c, r, d)))
  }

  /** The flavor of a match, with its divisors: the first complete flavor of least effort. */
  ghost predicate BestMatch(h: Hardware, flavors: seq<Flavor>, c: int, r: int, d: int, i: nat, m: FlavorMatch) {
    && Divisor(Values(flavors, Vcpus), c) && Divisor(Values(flavors, Ram), r) && Divisor(Values(flavors, DiskGb), d)
    && LeastEffort(h, flavors, c, r, d, i) && MatchOf(h, flavors[i], c, r, d, m)
  }

  /** A score is 1 minus the root of `effort / whole`, or 0 when that would be negative. */
  ghost predicate ScoreOfEffort(score: real, effort: real, whole: real) {
    && 0.0 <= score <= 1.0
    && if effort >= whole then score == 0.0 else score > 0.0 && ((1.0 - score) * (1.0 - score)) * whole == effort
  }

  lemma ScoreFromSquare(distance: real, squared: real, whole: real, effort: real)
    requires distance >= 0.0 && distance * distance == squared && whole > 0.0 && squared * whole == effort
    ensures ScoreOfEffort(ScoreOf(distance), effort, whole)
  {
    SquareOrder(distance, 1.0);
    ScaledOrder(squared, 1.0, whole, effort, whole);
  }

  lemma ScoreMeans(sqrt: real -> real, h: Hardware, f: Flavor, sc: Scale)
    requires IsSqrt(sqrt) && Usable(sc) && Complete(f)
    ensures ScoreOfEffort(ScoreOf(Distance(sqrt, TargetOf(h), sc, f)), Effort(h, f, sc.cpu, sc.ram, sc.disk) as real,
                          20.0 * Common(sc))
  {
    DistanceSquared(sqrt, TargetOf(h), sc, f);
    EffortCleared(h, f, sc);
    CommonPositive(sc);
    ScoreFromSquare(Distance(sqrt, TargetOf(h), sc, f), SquaredDistance(TargetOf(h), sc, f), 20.0 * Common(sc),
                    Effort(h, f, sc.cpu, sc.ram, sc.disk) as real);
  }

  lemma ChoiceIsLeast(sqrt: real -> real, h: Hardware, flavors: seq<Flavor>, i: nat)
    requires IsSqrt(sqrt) && Chosen(sqrt, TargetOf(h), flavors, i)
    ensures var sc := ScaleOf(flavors).value; LeastEffort(h, flavors, sc.cpu, sc.ram, sc.disk, i)
  {
    var sc := ScaleOf(flavors).value;
    forall j | 0 <= j < |flavors| && Complete(flavors[j])
      ensures Effort(h, flavors[i], sc.cpu, sc.ram, sc.disk) <= Effort(h, flavors[j], sc.cpu, sc.ram, sc.disk)
      ensures j < i ==> Effort(h, flavors[i], sc.cpu, sc.ram, sc.disk) < Effort(h, flavors[j], sc.cpu, sc.ram, sc.disk)
    {
      EffortOrder(sqrt, h, flavors[i], flavors[j], sc);
      EffortOrder(sqrt, h, flavors[j], flavors[i], sc);
    }
  }

  lemma MatchMeans(sqrt: real -> real, h: Hardware, flavors: seq<Flavor>, i: nat, m: FlavorMatch)
    requires IsSqrt(sqrt) && Chosen(sqrt, TargetOf(h), flavors, i)
    requires Describes(sqrt, TargetOf(h), flavors, i, m)
    ensures var sc := ScaleOf(flavors).value; MatchOf(h, flavors[i], sc.cpu, sc.ram, sc.disk, m)
  {
    var sc := ScaleOf(flavors).value;
    assert Scale(sc.cpu, sc.ram, sc.disk) == sc;
    ScoreMeans(sqrt, h, flavors[i], sc);
  }

  /** Whatever `_match_flavor` may return as a match is the first complete flavor of least effort, with the score that
      its effort calls for. */
  lemma FlavorMeans(sqrt: real -> real, h: Hardware, flavors: seq<Flavor>, m: FlavorMatch)
    requires IsSqrt(sqrt) && RightFlavor(sqrt, Some(h), flavors, Ok(Some(m)))
    ensures exists c, r, d, i :: BestMatch(h, flavors, c, r, d, i, m)
  {
    var t := TargetOf(h);
    var i :| Chosen(sqrt, t, flavors, i) && Describes(sqrt, t, flavors, i, m);
    var sc := ScaleOf(flavors).value;
    ScaleMeans(flavors);
    ChoiceIsLeast(sqrt, h, flavors, i);
    MatchMeans(sqrt, h, flavors, i, m);
    assert BestMatch(h, flavors, sc.cpu, sc.ram, sc.disk, i, m);
  }

  /** When there is none: a field that no flavor of the catalog has is an error; no hardware, an empty catalog or no
      complete flavor is no match. */
  lemma NoFlavorMeans(
    sqrt: real -> real, hardware: Option<Hardware>, flavors: seq<Flavor>, r: Result<Option<FlavorMatch>, Error>)
    requires RightFlavor(sqrt, hardware, flavors, r)
    ensures r.Err? <==>
            && hardware.Some? && flavors != []
            && ((forall k :: 0 <= k < |flavors| ==> flavors[k].vcpus.None?)
                || (forall k :: 0 <= k < |flavors| ==> flavors[k].ram.None?)
                || (forall k :: 0 <= k < |flavors| ==> flavors[k].disk.None?))
    ensures r.Ok? && hardware.Some? ==>
              (r.value.Some? <==> exists k ::
                 0 <= k < |flavors| && flavors[k].vcpus.Some? && flavors[k].ram.Some? && flavors[k].disk.Some?)
  {
    EmptyColumn(flavors, Vcpus);
    EmptyColumn(flavors, Ram);
    EmptyColumn(flavors, DiskGb);
  }

  lemma EmptyColumn(flavors: seq<Flavor>, field: Field)
    ensures Column(flavors, field) == [] <==> forall k :: 0 <= k < |flavors| ==> Get(flavors[k], field).None?
  {
    if Column(flavors, field) != [] {
      ColumnMembers(flavors, field, Column(flavors, field)[0]);
    }
    if k :| 0 <= k < |flavors| && Get(flavors[k], field).Some? {
      ColumnContains(flavors, field, k);
    }
  }

  /** What a memo holds once it was asked: its old contents, else what OpenStack answers now. */
  function Kept<T>(cache: Option<seq<T>>, answer: Result<seq<T>, string>): Option<seq<T>> {
    if cache.Some? then cache else if answer.Ok? then Some(answer.value) else None
  }

  /** `map_vm` raises: the catalog cannot be read or lacks a field throughout, or a needed network list cannot
      be read. */
  predicate MapFails(flavors: Option<seq<Flavor>>, nets: Option<seq<OsNetwork>>, vm: VM) {
    && vm.hardware.Some?
    && (|| flavors.None?
        || (flavors.value != [] && ScaleOf(flavors.value).Err?)
        || (NicsOf(vm) != [] && nets.None?))
  }

  /** What `map_vm` owes for a given catalog and network list. */
  ghost predicate RightMapping(
    sqrt: real -> real, lower: Lower, vm: VM, flavors: seq<Flavor>, nets: seq<OsNetwork>, m: VmMapping)
  {
    && RightFlavor(sqrt, vm.hardware, flavors, Ok(m.flavor))
    && m.networks == NetworksMapped(lower, NicsOf(vm), nets)
    && m.disks == DisksMapped(DisksOf(vm))
  }

  class Engine {
    var flavorCache: Option<seq<Flavor>>
    var networkCache: Option<seq<OsNetwork>>
    ghost var flavorCalls: nat
    ghost var networkCalls: nat

    constructor ()
      ensures flavorCache == None && networkCache == None && flavorCalls == 0 && networkCalls == 0
    {
      flavorCache, networkCache, flavorCalls, networkCalls := None, None, 0, 0;
    }

    /** The first catalog that could be read is kept; `catalog` is what OpenStack would answer now. */
    method GetFlavors(catalog: Result<seq<Flavor>, string>) returns (r: Result<seq<Flavor>, Error>)
      modifies this`flavorCache, this`flavorCalls
      ensures old(flavorCache).Some? ==>
                flavorCache == old(flavorCache) && r == Ok(flavorCache.value) && flavorCalls == old(flavorCalls)
      ensures old(flavorCache).None? && catalog.Ok? ==> flavorCache == Some(catalog.value) && r == Ok(catalog.value)
      ensures old(flavorCache).None? && catalog.Err? ==> flavorCache == None && r == Err(CatalogError(catalog.error))
      ensures old(flavorCache).None? ==> flavorCalls == old(flavorCalls) + 1
    {
      if flavorCache.Some? {
        return Ok(flavorCache.value);
      }
      flavorCalls := flavorCalls + 1;
      match catalog {
        case Err(e) => r := Err(CatalogError(e));
        case Ok(flavors) =>
          flavorCache := Some(flavors);
          r := Ok(flavors);
      }
    }

    method MatchFlavor(sqrt: real -> real, hardware: Option<Hardware>, catalog: Result<seq<Flavor>, string>)
      returns (r: Result<Option<FlavorMatch>, Error>)
      requires IsSqrt(sqrt)
      modifies this`flavorCache, this`flavorCalls
      ensures flavorCache == if hardware.None? then old(flavorCache) else Kept(old(flavorCache), catalog)
      ensures hardware.None? ==> r == Ok(None)
      ensures hardware.Some? && flavorCache.None? ==> r == Err(CatalogError(catalog.error))
      ensures hardware.Some? && flavorCache.Some? ==> RightFlavor(sqrt, hardware, flavorCache.value, r)
    {
      if hardware.None? {
        return Ok(None);
      }
      var got := GetFlavors(catalog);
      if got.Err? {
        return Err(got.error);
      }
      var flavors := got.value;
      if flavors == [] {
        return Ok(None);
      }
      var scale := ScaleOf(flavors);
      if scale.Err? {
        return Err(ValueError);
      }
      var t, sc := TargetOf(hardware.value), scale.value;
      var best := ScanCatalog(f => Distance(sqrt, t, sc, f), flavors);
      if best.None? {
        return Ok(None);
      }
      var f := flavors[best.value];
      var m := FlavorMatch(
        if f.id.Some? then f.id.value else "", f.vcpus.value, f.ram.value, f.disk.value,
        ScoreOf(Distance(sqrt, t, sc, f)),
        f.vcpus.value >= t.cpu && f.ram.value >= t.ram && f.disk.value >= t.disk,
        f.vcpus.value < t.cpu || f.ram.value < t.ram || f.disk.value < t.disk);
      assert Chosen(sqrt, t, flavors, best.value) && Describes(sqrt, t, flavors, best.value, m);
      r := Ok(Some(m));
    }

    /** The first network list that could be read is kept; `listing` is what OpenStack would answer now. */
    method GetNetworks(listing: Result<seq<OsNetwork>, string>) returns (r: Result<seq<OsNetwork>, Error>)
      modifies this`networkCache, this`networkCalls
      ensures old(networkCache).Some? ==>
                networkCache == old(networkCache) && r == Ok(networkCache.value) && networkCalls == old(networkCalls)
      ensures old(networkCache).None? && listing.Ok? ==>
                networkCache == Some(listing.value) && r == Ok(listing.value)
      ensures old(networkCache).None? && listing.Err? ==>
                networkCache == None && r == Err(CatalogError(listing.error))
      ensures old(networkCache).None? ==> networkCalls == old(networkCalls) + 1
    {
      if networkCache.Some? {
        return Ok(networkCache.value);
      }
      networkCalls := networkCalls + 1;
      match listing {
        case Err(e) => r := Err(CatalogError(e));
        case Ok(nets) =>
          networkCache := Some(nets);
          r := Ok(nets);
      }
    }

    /** `map_vm` with its memos: it fails exactly when `MapFails` says so, and a mapping it returns is right for
        the catalog and network list kept from the first time each could be read. */
    method MapVm(sqrt: real -> real, lower: Lower, vm: VM,
                 catalog: Result<seq<Flavor>, string>, listing: Result<seq<OsNetwork>, string>)
      returns (r: Result<VmMapping, Error>)
      requires IsSqrt(sqrt)
      modifies this
      ensures flavorCache == old(flavorCache) || flavorCache == Kept(old(flavorCache), catalog)
      ensures networkCache == old(networkCache) || networkCache == Kept(old(networkCache), listing)
      ensures r.Err? <==> MapFails(Kept(old(flavorCache), catalog), Kept(old(networkCache), listing), vm)
      ensures r.Ok? ==> RightMapping(sqrt, lower, vm, Known(Kept(old(flavorCache), catalog)),
                                     Known(Kept(old(networkCache), listing)), r.value)
    {
      var flavor := MatchFlavor(sqrt, vm.hardware, catalog);
      if flavor.Err? {
        return Err(flavor.error);
      }
      var networks: seq<NetworkMapping> := [];
      if NicsOf(vm) != [] {
        var nets := GetNetworks(listing);
        if nets.Err? {
          return Err(nets.error);
        }
        networks := MapNetworks(lower, NicsOf(vm), nets.value);
      }
      var disks := MapDisks(DisksOf(vm));
      r := Ok(VmMapping(flavor.value, networks, disks));
    }
  }
}
