/**
 The plan endpoint from inventory to plan: every VM is assessed, mapped against one catalog and one network
 list, and planned.
*/
module PlanPipeline {
  import opened Prelude
  import opened Inventory
  import Compatibility
  import opened MappingEngine
  import opened MigrationPlan

  datatype Failure = MappingFailed(mapping: MappingEngine.Error) | PlanFailed(plan: MigrationPlan.Error)

  /** The verdict, by the closed form of the score. */
  predicate Plannable(lower: Lower, vm: VM) {
    Compatibility.Criticals(lower, vm) == 0 && Compatibility.Highs(lower, vm) <= 2
  }

  /** The cost of a VM, by its hardware, the catalog and the network list alone. */
  function Cost(lower: Lower, flavors: seq<Flavor>, nets: seq<OsNetwork>, vm: VM): int {
    var unmatched := CountUnmatched(NetworksMapped(lower, NicsOf(vm), nets));
    21 + (if exists j :: 0 <= j < |flavors| && Complete(flavors[j]) then 1 else 0)
    + (|NicsOf(vm)| - unmatched) + 3 * unmatched
    + |DisksOf(vm)| + (if DisksOf(vm) != [] then 1 else 0)
  }

  /** What a reader of the plan sees of a VM. */
  datatype Line = Line(vmId: string, name: string, priority: int, minutes: int, downtime: nat)

  function LineOf(p: PlanVm): Line {
    Line(p.vmId, p.name, p.priority, p.minutes, p.downtime)
  }

  function Lines(vms: seq<PlanVm>): seq<Line> {
    seq(|vms|, i requires 0 <= i < |vms| => LineOf(vms[i]))
  }

  /** The line a VM calls for, if it can be planned. */
  function ExpectedLine(
    lower: Lower, overrides: map<string, int>, flavors: seq<Flavor>, nets: seq<OsNetwork>, vm: VM): Option<Line>
  {
    if Plannable(lower, vm)
    then Some(Line(vm.id, vm.name, Priority(overrides, vm), Cost(lower, flavors, nets, vm), Downtime(lower, vm)))
    else None
  }

  /** The lines the inventory calls for, in input order. */
  function Expected(
    lower: Lower, overrides: map<string, int>, flavors: seq<Flavor>, nets: seq<OsNetwork>, vms: seq<VM>): seq<Line>
  {
    Gather((vm: VM) => ExpectedLine(lower, overrides, flavors, nets, vm), vms)
  }

  /** `it` is `vm` assessed and mapped against `flavors` and `nets`. */
  ghost predicate Prepared(
    sqrt: real -> real, lower: Lower, flavors: seq<Flavor>, nets: seq<OsNetwork>, vm: VM, it: Item)
  {
    && it.vm == vm && it.compatible == Plannable(lower, vm)
    && it.mapping.Some? && RightMapping(sqrt, lower, vm, flavors, nets, it.mapping.value)
  }

  ghost predicate AllPrepared(
    sqrt: real -> real, lower: Lower, flavors: seq<Flavor>, nets: seq<OsNetwork>, vms: seq<VM>, items: seq<Item>)
  {
    |items| == |vms| && forall i :: 0 <= i < |vms| ==> Prepared(sqrt, lower, flavors, nets, vms[i], items[i])
  }

  lemma FlavorFoundIff(sqrt: real -> real, vm: VM, flavors: seq<Flavor>, flavor: Option<FlavorMatch>)
    requires RightFlavor(sqrt, vm.hardware, flavors, Ok(flavor)) && vm.hardware.Some?
    ensures flavor.Some? <==> exists j :: 0 <= j < |flavors| && Complete(flavors[j])
  {
  }

  lemma PreparedLine(
    sqrt: real -> real, lower: Lower, overrides: map<string, int>, flavors: seq<Flavor>, nets: seq<OsNetwork>,
    vm: VM, it: Item)
    requires Prepared(sqrt, lower, flavors, nets, vm, it) && it.compatible
    ensures LineOf(PlanFor(lower, overrides, it)) ==
            Line(vm.id, vm.name, Priority(overrides, vm), Cost(lower, flavors, nets, vm), Downtime(lower, vm))
    ensures Downtime(lower, vm) in {0, 10, 15, 30}
  {
    var m := it.mapping.value;
    PlannableVm(lower, vm);
    FlavorFoundIff(sqrt, vm, flavors, m.flavor);
    CostFormula(sqrt, lower, vm, flavors, nets, m);
  }

  lemma PlannableVm(lower: Lower, vm: VM)
    requires Plannable(lower, vm)
    ensures vm.hardware.Some? && Downtime(lower, vm) in {0, 10, 15, 30}
  {
    Compatibility.ScoreFormula(lower, vm);
    PlannedDowntime(lower, vm);
  }

  lemma PreparedFront(
    sqrt: real -> real, lower: Lower, flavors: seq<Flavor>, nets: seq<OsNetwork>, vms: seq<VM>, items: seq<Item>,
    n: nat)
    requires AllPrepared(sqrt, lower, flavors, nets, vms, items) && n < |vms|
    ensures AllPrepared(sqrt, lower, flavors, nets, vms[..n], items[..n])
    ensures Prepared(sqrt, lower, flavors, nets, vms[n], items[n])
  {
  }

  lemma {:induction false} PlannedLines(
    sqrt: real -> real, lower: Lower, overrides: map<string, int>, flavors: seq<Flavor>, nets: seq<OsNetwork>,
    vms: seq<VM>, items: seq<Item>)
    requires AllPrepared(sqrt, lower, flavors, nets, vms, items)
    ensures Lines(Planned(lower, overrides, items)) == Expected(lower, overrides, flavors, nets, vms)
  {
    if vms != [] {
      var n := |vms| - 1;
      PreparedFront(sqrt, lower, flavors, nets, vms, items, n);
      PlannedLines(sqrt, lower, overrides, flavors, nets, vms[..n], items[..n]);
      if items[n].compatible {
        PreparedLine(sqrt, lower, overrides, flavors, nets, vms[n], items[n]);
        LinesNext(Planned(lower, overrides, items[..n]), PlanFor(lower, overrides, items[n]));
      }
    }
  }

  lemma {:induction false} AllWellPlanned(
    sqrt: real -> real, lower: Lower, overrides: map<string, int>, flavors: seq<Flavor>, nets: seq<OsNetwork>,
    vms: seq<VM>, items: seq<Item>)
    requires AllPrepared(sqrt, lower, flavors, nets, vms, items)
    ensures forall p :: p in Planned(lower, overrides, items) ==> WellPlanned(p)
  {
    if vms != [] {
      var n := |vms| - 1;
      PreparedFront(sqrt, lower, flavors, nets, vms, items, n);
      AllWellPlanned(sqrt, lower, overrides, flavors, nets, vms[..n], items[..n]);
      if items[n].compatible {
        PlannableVm(lower, vms[n]);
        PlanForMeans(lower, overrides, items[n]);
      }
    }
  }

  lemma LinesNext(vms: seq<PlanVm>, p: PlanVm)
    ensures Lines(vms + [p]) == Lines(vms) + [LineOf(p)]
  {
  }

  // ---------------------------------------------------------------------
  // The endpoint
  // ---------------------------------------------------------------------

  /** The VMs of the ids that the inventory knows, in order; the others are skipped. */
  function Found(inventory: string -> Option<VM>, ids: seq<string>): seq<VM> {
    Gather(inventory, ids)
  }

  lemma {:induction false} FoundAt(inventory: string -> Option<VM>, ids: seq<string>, n: nat)
    requires n < |ids| && inventory(ids[n]).Some?
    ensures inventory(ids[n]).value in Found(inventory, ids)
  {
    var last := |ids| - 1;
    if n < last {
      FoundAt(inventory, ids[..last], n);
    }
  }

  ghost predicate SomeMapFails(flavors: Option<seq<Flavor>>, nets: Option<seq<OsNetwork>>, vms: seq<VM>) {
    exists vm :: vm in vms && MapFails(flavors, nets, vm)
  }

  /** One VM through assessment and mapping. */
  method PrepareOne(engine: Engine, sqrt: real -> real, lower: Lower, vm: VM,
                    catalog: Result<seq<Flavor>, string>, listing: Result<seq<OsNetwork>, string>)
    returns (r: Result<Item, Failure>)
    requires IsSqrt(sqrt)
    modifies engine
    ensures Kept(engine.flavorCache, catalog) == Kept(old(engine.flavorCache), catalog)
    ensures Kept(engine.networkCache, listing) == Kept(old(engine.networkCache), listing)
    ensures r.Err? <==> MapFails(Kept(engine.flavorCache, catalog), Kept(engine.networkCache, listing), vm)
    ensures r.Err? ==> r.error.MappingFailed?
    ensures r.Ok? ==> Prepared(sqrt, lower, Known(Kept(engine.flavorCache, catalog)),
                               Known(Kept(engine.networkCache, listing)), vm, r.value)
  {
    var assessment := Compatibility.Evaluate(lower, vm);
    var mapping := engine.MapVm(sqrt, lower, vm, catalog, listing);
    if mapping.Err? {
      return Err(MappingFailed(mapping.error));
    }
    r := Ok(Item(vm, assessment.compatible, Some(mapping.value)));
  }

  /** The loop of the endpoint: assess and map every known VM through one engine. */
  method Prepare(engine: Engine, sqrt: real -> real, lower: Lower, inventory: string -> Option<VM>, ids: seq<string>,
                 catalog: Result<seq<Flavor>, string>, listing: Result<seq<OsNetwork>, string>)
    returns (r: Result<seq<Item>, Failure>)
    requires IsSqrt(sqrt)
    modifies engine
    ensures var flavors, nets := Kept(old(engine.flavorCache), catalog), Kept(old(engine.networkCache), listing);
            && (r.Err? <==> SomeMapFails(flavors, nets, Found(inventory, ids)))
            && (r.Err? ==> r.error.MappingFailed?)
            && (r.Ok? ==> AllPrepared(sqrt, lower, Known(flavors), Known(nets), Found(inventory, ids), r.value))
  {
    ghost var flavors, nets := Kept(engine.flavorCache, catalog), Kept(engine.networkCache, listing);
    var items: seq<Item> := [];
    for i := 0 to |ids|
      invariant Kept(engine.flavorCache, catalog) == flavors && Kept(engine.networkCache, listing) == nets
      invariant !SomeMapFails(flavors, nets, Found(inventory, ids[..i]))
      invariant AllPrepared(sqrt, lower, Known(flavors), Known(nets), Found(inventory, ids[..i]), items)
    {
      PrefixOfPrefix(ids, i + 1, i);
      var vm := inventory(ids[i]);
      if vm.Some? {
        var next := PrepareOne(engine, sqrt, lower, vm.value, catalog, listing);
        if next.Err? {
          FoundAt(inventory, ids, i);
          return Err(next.error);
        }
        items := items + [next.value];
      }
    }
    WholePrefix(ids);
    r := Ok(items);
  }

  lemma FailsAlike(
    sqrt: real -> real, lower: Lower, overrides: map<string, int>, flavors: seq<Flavor>, nets: seq<OsNetwork>,
    vms: seq<VM>, items: seq<Item>)
    requires AllPrepared(sqrt, lower, flavors, nets, vms, items)
    ensures SomePriorityOut(overrides, items) <==> SomePlannableOut(lower, overrides, vms)
  {
    if i :| 0 <= i < |items| && items[i].compatible && !PriorityFits(overrides, items[i].vm) {
      assert Prepared(sqrt, lower, flavors, nets, vms[i], items[i]);
    }
    if vm :| vm in vms && Plannable(lower, vm) && !PriorityFits(overrides, vm) {
      var i :| 0 <= i < |vms| && vms[i] == vm;
      assert Prepared(sqrt, lower, flavors, nets, vms[i], items[i]);
    }
  }

  ghost predicate SomePlannableOut(lower: Lower, overrides: map<string, int>, vms: seq<VM>) {
    exists vm :: vm in vms && Plannable(lower, vm) && !PriorityFits(overrides, vm)
  }

  function LineMinutes(lines: seq<Line>): int {
    if lines == [] then 0 else LineMinutes(lines[..|lines| - 1]) + lines[|lines| - 1].minutes
  }

  lemma {:induction false} MinutesOfLines(vms: seq<PlanVm>)
    ensures LineMinutes(Lines(vms)) == TotalMinutes(vms)
  {
    if vms != [] {
      MinutesOfLines(vms[..|vms| - 1]);
      assert Lines(vms)[..|vms| - 1] == Lines(vms[..|vms| - 1]);
    }
  }

  lemma {:induction false} BagOfLines(vms: seq<PlanVm>)
    ensures multiset(Lines(vms)) == GatherBag((p: PlanVm) => Some(LineOf(p)), vms)
  {
    if vms != [] {
      var n := |vms| - 1;
      BagOfLines(vms[..n]);
      assert Lines(vms) == Lines(vms[..n]) + [LineOf(vms[n])];
    }
  }

  lemma LinesPermute(a: seq<PlanVm>, b: seq<PlanVm>)
    requires multiset(a) == multiset(b)
    ensures multiset(Lines(a)) == multiset(Lines(b))
  {
    var f := (p: PlanVm) => Some(LineOf(p));
    BagOfLines(a);
    BagOfLines(b);
    GatherPermutes(f, a, b);
    BagOfGathered(f, a);
    BagOfGathered(f, b);
  }

  /** What the plan promises of every VM in it. */
  ghost predicate WellPlanned(p: PlanVm) {
    p.downtime in {0, 10, 15, 30} && NumberedFromOne(p.steps)
  }

  /** The plan is the stable sort, by priority and name, of what is planned for `items`; its lines are those the
      inventory calls for, its number and total are theirs, steps are numbered from one and downtimes are 0, 10, 15
      or 30. */
  ghost predicate RightPlan(
    lower: Lower, overrides: map<string, int>, flavors: seq<Flavor>, nets: seq<OsNetwork>, vms: seq<VM>,
    items: seq<Item>, plan: Plan)
  {
    var expected := Expected(lower, overrides, flavors, nets, vms);
    && plan.vms == StableSort(Planned(lower, overrides, items))
    && StablySorted(Planned(lower, overrides, items), plan.vms)
    && Lines(Planned(lower, overrides, items)) == expected
    && multiset(Lines(plan.vms)) == multiset(expected)
    && plan.totalVms == |plan.vms| == |expected| && plan.totalMinutes == LineMinutes(expected)
    && forall p :: p in plan.vms ==> WellPlanned(p)
  }

  /** `generate_plan` on what the loop prepared. */
  method PlanPrepared(lower: Lower, items: seq<Item>, overrides: map<string, int>, ghost sqrt: real -> real,
                      ghost flavors: seq<Flavor>, ghost nets: seq<OsNetwork>, ghost vms: seq<VM>)
    returns (r: Result<Plan, Failure>)
    requires AllPrepared(sqrt, lower, flavors, nets, vms, items)
    ensures if SomePlannableOut(lower, overrides, vms) then r.Err? && r.error.PlanFailed?
            else r.Ok? && RightPlan(lower, overrides, flavors, nets, vms, items, r.value)
  {
    FailsAlike(sqrt, lower, overrides, flavors, nets, vms, items);
    var plan := GeneratePlan(lower, items, overrides);
    if plan.Err? {
      return Err(PlanFailed(plan.error));
    }
    PlanIsRight(sqrt, lower, overrides, flavors, nets, vms, items, plan.value);
    r := Ok(plan.value);
  }

  lemma PlanIsRight(
    sqrt: real -> real, lower: Lower, overrides: map<string, int>, flavors: seq<Flavor>, nets: seq<OsNetwork>,
    vms: seq<VM>, items: seq<Item>, plan: Plan)
    requires AllPrepared(sqrt, lower, flavors, nets, vms, items)
    requires var planned := Planned(lower, overrides, items);
             && plan.vms == StableSort(planned) && StablySorted(planned, plan.vms)
             && plan.totalVms == |planned| && plan.totalMinutes == TotalMinutes(planned)
    ensures RightPlan(lower, overrides, flavors, nets, vms, items, plan)
  {
    var planned := Planned(lower, overrides, items);
    PlannedLines(sqrt, lower, overrides, flavors, nets, vms, items);
    AllWellPlanned(sqrt, lower, overrides, flavors, nets, vms, items);
    MinutesOfLines(planned);
    LinesPermute(plan.vms, planned);
    SameMembers(plan.vms, planned);
  }

  /** The endpoint.  It fails exactly when some known VM cannot be mapped or, all of them mapped, a plannable one
      has a priority outside 1 to 10; otherwise it returns the right plan. */
  method CreateMigrationPlan(engine: Engine, sqrt: real -> real, lower: Lower,
                             inventory: string -> Option<VM>, ids: seq<string>,
                             catalog: Result<seq<Flavor>, string>, listing: Result<seq<OsNetwork>, string>,
                             overrides: map<string, int>)
    returns (r: Result<Plan, Failure>, ghost items: seq<Item>)
    requires IsSqrt(sqrt)
    modifies engine
    ensures var flavors, nets := Kept(old(engine.flavorCache), catalog), Kept(old(engine.networkCache), listing);
            var vms := Found(inventory, ids);
            if SomeMapFails(flavors, nets, vms) then r.Err? && r.error.MappingFailed?
            else if SomePlannableOut(lower, overrides, vms) then r.Err? && r.error.PlanFailed?
            else
              && r.Ok? && AllPrepared(sqrt, lower, Known(flavors), Known(nets), vms, items)
              && RightPlan(lower, overrides, Known(flavors), Known(nets), vms, items, r.value)
  {
    ghost var flavors, nets := Known(Kept(engine.flavorCache, catalog)), Known(Kept(engine.networkCache, listing));
    var prepared := Prepare(engine, sqrt, lower, inventory, ids, catalog, listing);
    if prepared.Err? {
      return Err(prepared.error), [];
    }
    items := prepared.value;
    r := PlanPrepared(lower, prepared.value, overrides, sqrt, flavors, nets, Found(inventory, ids));
  }

  // ---------------------------------------------------------------------
  // The order of the ids
  // ---------------------------------------------------------------------

  lemma {:induction false} LineMinutesWithout(lines: seq<Line>, j: nat)
    requires j < |lines|
    ensures LineMinutes(lines) == lines[j].minutes + LineMinutes(Without(lines, j))
  {
    var n := |lines| - 1;
    if j == n {
      WithoutEnd(lines);
    } else {
      LineMinutesWithout(lines[..n], j);
      WithoutFront(lines, j);
      var rest := Without(lines[..n], j);
      AppendFront(rest, lines[n]);
    }
  }

  lemma {:induction false} LineMinutesPermute(a: seq<Line>, b: seq<Line>)
    requires multiset(a) == multiset(b)
    ensures LineMinutes(a) == LineMinutes(b)
  {
    SameMembers(a, b);
    if a != [] {
      var j := PermutationHead(a, b);
      LineMinutesPermute(a[1..], Without(b, j));
      LineMinutesWithout(b, j);
      LineMinutesWithout(a, 0);
      assert Without(a, 0) == a[1..];
    }
  }

  /** Through the whole pipeline the order of the ids decides only the order of the input: the request fails alike,
      and the lines it calls for, their number and their total are the same. */
  lemma PlanIgnoresIdOrder(
    lower: Lower, overrides: map<string, int>, flavors: Option<seq<Flavor>>, nets: Option<seq<OsNetwork>>,
    inventory: string -> Option<VM>, ids: seq<string>, ids': seq<string>)
    requires multiset(ids) == multiset(ids')
    ensures var vms, vms' := Found(inventory, ids), Found(inventory, ids');
            && (SomeMapFails(flavors, nets, vms) <==> SomeMapFails(flavors, nets, vms'))
            && (SomePlannableOut(lower, overrides, vms) <==> SomePlannableOut(lower, overrides, vms'))
            && var lines := Expected(lower, overrides, Known(flavors), Known(nets), vms);
               var lines' := Expected(lower, overrides, Known(flavors), Known(nets), vms');
               && multiset(lines) == multiset(lines') && |lines| == |lines'|
               && LineMinutes(lines) == LineMinutes(lines')
  {
    var vms, vms' := Found(inventory, ids), Found(inventory, ids');
    GatherPermutes(inventory, ids, ids');
    SameMembers(vms, vms');
    var f := (vm: VM) => ExpectedLine(lower, overrides, Known(flavors), Known(nets), vm);
    GatherPermutes(f, vms, vms');
    SameMembers(Gather(f, vms), Gather(f, vms'));
    LineMinutesPermute(Gather(f, vms), Gather(f, vms'));
  }

  /** The endpoint asked twice, with the ids in another order and a fresh engine each time. */
  method PlanInBothOrders(sqrt: real -> real, lower: Lower, inventory: string -> Option<VM>,
                          ids: seq<string>, ids': seq<string>,
                          catalog: Result<seq<Flavor>, string>, listing: Result<seq<OsNetwork>, string>,
                          overrides: map<string, int>)
    returns (r: Result<Plan, Failure>, r': Result<Plan, Failure>)
    requires IsSqrt(sqrt) && multiset(ids) == multiset(ids')
    ensures r.Ok? <==> r'.Ok?
    ensures r.Ok? ==>
              && multiset(Lines(r.value.vms)) == multiset(Lines(r'.value.vms))
              && r.value.totalVms == r'.value.totalVms && r.value.totalMinutes == r'.value.totalMinutes
  {
    var engine := new Engine();
    var engine' := new Engine();
    ghost var items, items';
    PlanIgnoresIdOrder(lower, overrides, Kept(None, catalog), Kept(None, listing), inventory, ids, ids');
    r, items := CreateMigrationPlan(engine, sqrt, lower, inventory, ids, catalog, listing, overrides);
    r', items' := CreateMigrationPlan(engine', sqrt, lower, inventory, ids', catalog, listing, overrides);
  }
}
