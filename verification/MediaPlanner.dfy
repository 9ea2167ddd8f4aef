/**
 Choosing a tested preset for a media request: every preset is evaluated against hard requirements,
 and the survivors are ranked. Names are given casefolded, and a preset's or resource's stored lists as
 sets.
 */
module MediaPlanner {
  import opened Common

  // ---------------------------------------------------------------------------
  // Sort keys: three numbers, a name and an id

  datatype Key = Key(a: int, b: int, c: int, name: string, id: string)

  predicate Ahead(x: Key, y: Key) {
    if x.a != y.a then x.a < y.a
    else if x.b != y.b then x.b < y.b
    else if x.c != y.c then x.c < y.c
    else if x.name != y.name then Less(x.name, y.name)
    else Less(x.id, y.id)
  }

  lemma AheadTotal(x: Key, y: Key)
    ensures x == y || Ahead(x, y) || Ahead(y, x)
    ensures !(Ahead(x, y) && Ahead(y, x)) && !Ahead(x, x)
  {
    LessTotal(x.name, y.name);
    LessTotal(x.id, y.id);
    LessIrreflexive(x.name);
    LessIrreflexive(x.id);
    if Less(x.name, y.name) && Less(y.name, x.name) { LessTransitive(x.name, y.name, x.name); }
    if Less(x.id, y.id) && Less(y.id, x.id) { LessTransitive(x.id, y.id, x.id); }
  }

  lemma AheadTransitive(x: Key, y: Key, z: Key)
    requires Ahead(x, y) && Ahead(y, z)
    ensures Ahead(x, z)
  {
    if Less(x.name, y.name) && Less(y.name, z.name) {
      LessTransitive(x.name, y.name, z.name);
      LessIrreflexive(x.name);
    }
    if Less(x.id, y.id) && Less(y.id, z.id) { LessTransitive(x.id, y.id, z.id); }
  }

  // The head of the list sorted by key
  function Best<T>(items: seq<T>, key: T -> Key): (r: Option<T>)
    ensures r.None? <==> items == []
    ensures r.Some? ==> r.value in items
  {
    if items == [] then None
    else
      var last := items[|items| - 1];
      var best := Best(items[..|items| - 1], key);
      if best.None? || Ahead(key(last), key(best.value)) then Some(last) else best
  }

  ghost predicate Distinct<T(!new)>(items: seq<T>, key: T -> Key) {
    forall x, y :: x in items && y in items && key(x) == key(y) ==> x == y
  }

  lemma {:induction false} BestIsLeast<T(!new)>(items: seq<T>, key: T -> Key)
    requires items != []
    ensures forall x :: x in items ==> !Ahead(key(x), key(Best(items, key).value))
  {
    var init, last := items[..|items| - 1], items[|items| - 1];
    forall x | x in items ensures x in init || x == last {
    }
    AheadTotal(key(last), key(last));
    if init != [] {
      BestIsLeast(init, key);
      var best := Best(init, key).value;
      forall x | x in init && Ahead(key(last), key(best)) ensures !Ahead(key(x), key(last)) {
        if Ahead(key(x), key(last)) { AheadTransitive(key(x), key(last), key(best)); }
      }
    }
  }

  /** The head of the sorted list does not depend on the order in which the items were enumerated. */
  lemma BestIgnoresOrder<T(!new)>(items: seq<T>, other: seq<T>, key: T -> Key)
    requires Distinct(items, key) && forall x :: x in items <==> x in other
    ensures Best(items, key) == Best(other, key)
  {
    assert items != [] ==> items[0] in other;
    assert other != [] ==> other[0] in items;
    if items != [] {
      BestIsLeast(items, key);
      BestIsLeast(other, key);
      AheadTotal(key(Best(items, key).value), key(Best(other, key).value));
    }
  }

  // ---------------------------------------------------------------------------
  // The catalog

  datatype Operation = Generate | Inpaint | Outpaint | ImageToImage

  datatype ResourceType = Model | Workflow | Lora | OtherResource

  datatype Resource = Resource(
    id: string, kind: ResourceType, name: string, priority: int, vram: nat,
    domains: set<string>, content: set<string>, features: set<string>, operations: set<Operation>,
    provider: string, backend: string, sourceBindings: bool, identityBindings: bool, weight: real)

  // The base models each resource declares itself compatible with
  type Edges = map<string, set<string>>

  datatype Slot = Slot(domains: set<string>, content: set<string>, max: int)

  datatype Definition = Definition(
    baseId: string, workflowId: string, workflowSlot: bool, fixedLoras: seq<(string, real)>,
    stages: seq<string>, slots: seq<Slot>, mechanisms: set<string>)

  datatype Preset = Preset(
    id: string, name: string, kind: string, enabled: bool, priority: int,
    domains: set<string>, content: set<string>, features: set<string>, operations: set<Operation>,
    definition: Definition)

  datatype Request = Request(
    kind: string, operation: Operation, domains: set<string>, content: set<string>, features: set<string>,
    mechanism: string)

  datatype Preferences = Preferences(model: string, persona: seq<string>, measured: seq<string>)

  datatype Catalog = Catalog(
    resources: seq<Resource>, compatible: Edges, vramBudget: int, maxLoras: int,
    providers: set<string>, readyBackends: Option<set<(string, string)>>)

  predicate UniqueIds(resources: seq<Resource>) {
    forall x, y :: x in resources && y in resources && x.id == y.id ==> x == y
  }

  // `resources.get`; no resource has the empty id
  function Get(resources: seq<Resource>, id: string): (r: Option<Resource>)
    ensures r.Some? ==> r.value in resources && r.value.id == id
    ensures r.None? ==> forall x :: x in resources ==> x.id != id
  {
    if resources == [] then None
    else if resources[|resources| - 1].id == id then Some(resources[|resources| - 1])
    else Get(resources[..|resources| - 1], id)
  }

  predicate Compatible(edges: Edges, id: string, baseId: string) {
    id in edges && baseId in edges[id]
  }

  function RuntimeOperations(provider: string, backend: string): set<Operation> {
    if provider == "openai-image" && backend == "openai" then {Generate}
    else if provider == "local-image" && backend == "automatic1111" then {Generate}
    else if provider == "local-image" && backend == "comfyui" then {Generate, Inpaint, Outpaint, ImageToImage}
    else if provider == "openai-video" && backend == "openai" then {Generate}
    else {}
  }

  // ---------------------------------------------------------------------------
  // Workflows and stages

  predicate WorkflowFits(edges: Edges, baseId: string, operation: Operation, row: Resource) {
    row.kind == Workflow && Compatible(edges, row.id, baseId) && operation in row.operations
  }

  function WorkflowKey(missing: set<string>, row: Resource): Key {
    Key(-|missing * row.features|, -row.priority, 0, row.name, row.id)
  }

  // `_select_workflow`
  function SelectWorkflow(rows: seq<Resource>, edges: Edges, baseId: string, operation: Operation, missing: set<string>)
    : Option<Resource>
  {
    Best(Filter(rows, row => WorkflowFits(edges, baseId, operation, row)), row => WorkflowKey(missing, row))
  }

  const IDENTITY_CONTROL := "identity_control"

  function Mechanisms(workflow: Option<Resource>): set<string> {
    if workflow.None? then {}
    else
      var row := workflow.value;
      if IDENTITY_CONTROL !in row.features || !row.identityBindings then {}
      else if Generate in row.operations then {"reference_adapter"}
      else if row.sourceBindings then {"identity_pass"}
      else {}
  }

  datatype Reason =
    | NoBase | NoAdapter | Unreachable | NoWorkflow | NoLora
    | StageMissing(i: nat) | StageEmpty(i: nat) | StageUnbound(i: nat)
    | OperationNotCovered | NeedsWorkflow | MissingContent(missing: set<string>) | MissingFeatures(missing: set<string>)
    | NoMechanism | AdapterCannot | OverBudget(vram: int)

  function StageRow(resources: seq<Resource>, workflow: Option<Resource>, id: string, i: nat): Option<Resource> {
    if id != "" then Get(resources, id) else if i == 0 then workflow else None
  }

  function StageReason(resources: seq<Resource>, workflow: Option<Resource>, id: string, i: nat): Option<Reason> {
    var row := StageRow(resources, workflow, id, i);
    if id != "" && (row.None? || row.value.kind != Workflow) then Some(StageMissing(i))
    else if i != 0 && row.None? then Some(StageEmpty(i))
    else if i != 0 && !row.value.sourceBindings then Some(StageUnbound(i))
    else None
  }

  // `_resolve_stages` for the first stages of those declared
  function ResolveStages(resources: seq<Resource>, workflow: Option<Resource>, declared: seq<string>)
    : (seq<Option<Resource>>, seq<Reason>)
  {
    if declared == [] then ([], [])
    else
      var i := |declared| - 1;
      var (stages, reasons) := ResolveStages(resources, workflow, declared[..i]);
      var reason := StageReason(resources, workflow, declared[i], i);
      if reason.Some? then (stages, reasons + [reason.value])
      else (stages + [StageRow(resources, workflow, declared[i], i)], reasons)
  }

  /** Without a rejection every declared stage is there, in order, and every one after the first has a
      workflow that takes the previous stage's picture. */
  lemma {:induction false} StagesComplete(resources: seq<Resource>, workflow: Option<Resource>, declared: seq<string>)
    requires ResolveStages(resources, workflow, declared).1 == []
    ensures var stages := ResolveStages(resources, workflow, declared).0;
            && |stages| == |declared|
            && forall i :: 0 <= i < |stages| ==>
                 && stages[i] == StageRow(resources, workflow, declared[i], i)
                 && (declared[i] != "" ==> stages[i].Some? && stages[i].value.kind == Workflow)
                 && (0 < i ==> stages[i].Some? && stages[i].value.sourceBindings)
  {
    if declared != [] {
      StagesComplete(resources, workflow, declared[..|declared| - 1]);
    }
  }

  // ---------------------------------------------------------------------------
  // Open LoRA slots

  datatype Demand = Demand(domains: set<string>, content: set<string>, features: set<string>)

  datatype Coverage = Coverage(domains: set<string>, content: set<string>, features: set<string>,
      operations: set<Operation>)

  function Covering(c: Coverage, row: Resource): Coverage {
    Coverage(c.domains + row.domains, c.content + row.content, c.features + row.features, c.operations + row.operations)
  }

  // `chosen` pairs each LoRA with the slot it fills.
  datatype Filling = Filling(chosen: seq<(Resource, nat)>, used: set<string>, covered: Coverage)

  function Contribution(want: Demand, c: Coverage, row: Resource): nat {
    |(want.domains - c.domains) * row.domains|
    + 2 * |(want.content - c.content) * row.content|
    + 2 * |(want.features - c.features) * row.features|
  }

  predicate SlotFits(edges: Edges, baseId: string, slot: Slot, row: Resource) {
    && row.kind == Lora && Compatible(edges, row.id, baseId)
    && (slot.domains != {} ==> row.domains * slot.domains != {})
    && (slot.content != {} ==> row.content * slot.content != {})
  }

  predicate Scored(edges: Edges, baseId: string, slot: Slot, want: Demand, f: Filling, row: Resource) {
    row.id !in f.used && SlotFits(edges, baseId, slot, row) && Contribution(want, f.covered, row) > 0
  }

  function LoraKey(want: Demand, c: Coverage, row: Resource): Key {
    Key(-(Contribution(want, c, row) as int), -row.priority, row.vram, row.name, row.id)
  }

  function Pick(rows: seq<Resource>, edges: Edges, baseId: string, slot: Slot, want: Demand, f: Filling)
    : (r: Option<Resource>)
    ensures r.Some? ==> r.value in rows && Scored(edges, baseId, slot, want, f, r.value)
  {
    Best(Filter(rows, row => Scored(edges, baseId, slot, want, f, row)), row => LoraKey(want, f.covered, row))
  }

  function Placed(f: Filling, row: Resource, slot: nat): Filling {
    Filling(f.chosen + [(row, slot)], f.used + {row.id}, Covering(f.covered, row))
  }

  // At most `n` more LoRAs for the slot
  function FillSlot(rows: seq<Resource>, edges: Edges, baseId: string, slot: Slot, i: nat, n: nat, want: Demand,
                    limit: nat, f: Filling): Filling
  {
    if n == 0 || (limit > 0 && |f.chosen| >= limit) then f
    else
      var pick := Pick(rows, edges, baseId, slot, want, f);
      if pick.None? then f
      else FillSlot(rows, edges, baseId, slot, i, n - 1, want, limit, Placed(f, pick.value, i))
  }

  // `_fill_slots`, from slot `i` on
  function FillSlots(rows: seq<Resource>, edges: Edges, baseId: string, slots: seq<Slot>, i: nat, want: Demand,
                     limit: nat, f: Filling): Filling
    requires i <= |slots|
    decreases |slots| - i
  {
    if i == |slots| then f
    else FillSlots(rows, edges, baseId, slots, i + 1, want, limit,
                   FillSlot(rows, edges, baseId, slots[i], i, Max(0, slots[i].max), want, limit, f))
  }

  // How much of the demand is still open
  function Uncovered(want: Demand, c: Coverage): nat {
    |want.domains - c.domains| + |want.content - c.content| + |want.features - c.features|
  }

  function CountSlot(chosen: seq<(Resource, nat)>, i: nat): nat {
    if chosen == [] then 0
    else CountSlot(chosen[..|chosen| - 1], i) + if chosen[|chosen| - 1].1 == i then 1 else 0
  }

  predicate DistinctIds(chosen: seq<(Resource, nat)>) {
    forall j, k :: 0 <= j < k < |chosen| ==> chosen[j].0.id != chosen[k].0.id
  }

  // What the filler keeps: `taken` are the ids of the fixed LoRAs.
  ghost predicate FillingOk(rows: seq<Resource>, edges: Edges, baseId: string, slots: seq<Slot>, taken: set<string>,
      f: Filling) {
    && DistinctIds(f.chosen)
    && f.used == taken + (set c | c in f.chosen :: c.0.id)
    && (forall c :: c in f.chosen ==>
          c.0 in rows && c.0.id !in taken && c.1 < |slots| && SlotFits(edges, baseId, slots[c.1], c.0))
  }

  lemma ShrinksBy(want: set<string>, covered: set<string>, more: set<string>)
    ensures |want - (covered + more)| == |want - covered| - |(want - covered) * more|
  {
    var open := want - covered;
    assert want - (covered + more) == open - open * more;
    assert |open| == |open - open * more| + |open * more| by { SplitSize(open, more); }
  }

  lemma SplitSize(s: set<string>, t: set<string>)
    ensures |s| == |s - s * t| + |s * t|
  {
    assert s == (s - s * t) + s * t && (s - s * t) !! s * t;
  }

  /** Each pick strictly shrinks the open demand. */
  lemma PickShrinks(rows: seq<Resource>, edges: Edges, baseId: string, slot: Slot, want: Demand, f: Filling)
    requires Pick(rows, edges, baseId, slot, want, f).Some?
    ensures var row := Pick(rows, edges, baseId, slot, want, f).value;
            Uncovered(want, Covering(f.covered, row)) < Uncovered(want, f.covered)
  {
    var row := Pick(rows, edges, baseId, slot, want, f).value;
    ShrinksBy(want.domains, f.covered.domains, row.domains);
    ShrinksBy(want.content, f.covered.content, row.content);
    ShrinksBy(want.features, f.covered.features, row.features);
    hide Pick, SlotFits;
  }

  lemma PlacedOk(rows: seq<Resource>, edges: Edges, baseId: string, slots: seq<Slot>, taken: set<string>, f: Filling,
      row: Resource, i: nat)
    requires FillingOk(rows, edges, baseId, slots, taken, f) && i < |slots|
    requires row in rows && row.id !in f.used && SlotFits(edges, baseId, slots[i], row)
    ensures FillingOk(rows, edges, baseId, slots, taken, Placed(f, row, i))
  {
    hide SlotFits;
    var g := Placed(f, row, i);
    forall j | 0 <= j < |f.chosen| ensures f.chosen[j].0.id != row.id {
      assert f.chosen[j] in f.chosen;
    }
    assert forall c :: c in g.chosen <==> c in f.chosen || c == (row, i);
    assert (set c | c in g.chosen :: c.0.id) == (set c | c in f.chosen :: c.0.id) + {row.id};
  }

  lemma CountPlaced(f: Filling, row: Resource, i: nat, other: nat)
    ensures var g := Placed(f, row, i);
            && |g.chosen| == |f.chosen| + 1 && g.covered == Covering(f.covered, row)
            && CountSlot(g.chosen, other) == CountSlot(f.chosen, other) + if i == other then 1 else 0
  {
    assert Placed(f, row, i).chosen[..|f.chosen|] == f.chosen;
  }

  // What one pick does to everything that is counted
  lemma PickOk(rows: seq<Resource>, edges: Edges, baseId: string, slots: seq<Slot>, taken: set<string>, want: Demand,
      f: Filling, i: nat, other: nat)
    requires FillingOk(rows, edges, baseId, slots, taken, f) && i < |slots|
    requires Pick(rows, edges, baseId, slots[i], want, f).Some?
    ensures var g := Placed(f, Pick(rows, edges, baseId, slots[i], want, f).value, i);
            && FillingOk(rows, edges, baseId, slots, taken, g)
            && |g.chosen| == |f.chosen| + 1
            && Uncovered(want, g.covered) < Uncovered(want, f.covered)
            && CountSlot(g.chosen, other) == CountSlot(f.chosen, other) + if i == other then 1 else 0
  {
    var row := Pick(rows, edges, baseId, slots[i], want, f).value;
    PlacedOk(rows, edges, baseId, slots, taken, f, row, i);
    PickShrinks(rows, edges, baseId, slots[i], want, f);
    CountPlaced(f, row, i, other);
    hide FillingOk, Pick, Uncovered, SlotFits, CountSlot;
  }

  lemma {:induction false} FillSlotOk(
    rows: seq<Resource>, edges: Edges, baseId: string, slots: seq<Slot>, i: nat, n: nat, want: Demand, limit: nat,
    f: Filling, taken: set<string>, other: nat)
    requires FillingOk(rows, edges, baseId, slots, taken, f) && i < |slots|
    requires limit > 0 ==> |f.chosen| <= limit
    ensures var g := FillSlot(rows, edges, baseId, slots[i], i, n, want, limit, f);
            && FillingOk(rows, edges, baseId, slots, taken, g)
            && (limit > 0 ==> |g.chosen| <= limit)
            && |g.chosen| + Uncovered(want, g.covered) <= |f.chosen| + Uncovered(want, f.covered)
            && CountSlot(g.chosen, other) <= CountSlot(f.chosen, other) + if i == other then n else 0
    decreases n
  {
    hide FillingOk, Pick, Uncovered, Placed, Scored, SlotFits, CountSlot;
    var pick := Pick(rows, edges, baseId, slots[i], want, f);
    if n != 0 && !(limit > 0 && |f.chosen| >= limit) && pick.Some? {
      PickOk(rows, edges, baseId, slots, taken, want, f, i, other);
      FillSlotOk(rows, edges, baseId, slots, i, n - 1, want, limit, Placed(f, pick.value, i), taken, other);
    }
  }

  lemma {:induction false} FillSlotsOk(
    rows: seq<Resource>, edges: Edges, baseId: string, slots: seq<Slot>, i: nat, want: Demand, limit: nat, f: Filling,
    taken: set<string>, other: nat)
    requires FillingOk(rows, edges, baseId, slots, taken, f) && i <= |slots| && other < |slots|
    requires limit > 0 ==> |f.chosen| <= limit
    requires CountSlot(f.chosen, other) <= if other < i then Max(0, slots[other].max) else 0
    ensures var g := FillSlots(rows, edges, baseId, slots, i, want, limit, f);
            && FillingOk(rows, edges, baseId, slots, taken, g)
            && (limit > 0 ==> |g.chosen| <= limit)
            && |g.chosen| + Uncovered(want, g.covered) <= |f.chosen| + Uncovered(want, f.covered)
            && CountSlot(g.chosen, other) <= Max(0, slots[other].max)
    decreases |slots| - i
  {
    hide FillingOk, FillSlot, Uncovered;
    if i < |slots| {
      FillSlotOk(rows, edges, baseId, slots, i, Max(0, slots[i].max), want, limit, f, taken, other);
      var g := FillSlot(rows, edges, baseId, slots[i], i, Max(0, slots[i].max), want, limit, f);
      FillSlotsOk(rows, edges, baseId, slots, i + 1, want, limit, g, taken, other);
    }
  }

  /** The slot filler picks distinct LoRAs outside the fixed ones, each compatible with the base and within
      the filters of its slot, no more per slot than its maximum, no more in all than a positive limit, and
      no more than there was open demand. */
  lemma SlotsAreFilledWell(
    rows: seq<Resource>, edges: Edges, baseId: string, slots: seq<Slot>, want: Demand, limit: nat, taken: set<string>,
    covered: Coverage)
    ensures var g := FillSlots(rows, edges, baseId, slots, 0, want, limit, Filling([], taken, covered));
            && DistinctIds(g.chosen)
            && (forall c :: c in g.chosen ==>
                  c.0 in rows && c.0.id !in taken && c.1 < |slots| && SlotFits(edges, baseId, slots[c.1], c.0))
            && (limit > 0 ==> |g.chosen| <= limit)
            && |g.chosen| + Uncovered(want, g.covered) <= Uncovered(want, covered)
            && (forall i :: 0 <= i < |slots| ==> CountSlot(g.chosen, i) <= Max(0, slots[i].max))
  {
    var f := Filling([], taken, covered);
    assert FillingOk(rows, edges, baseId, slots, taken, f);
    if slots != [] {
      FillSlotsOk(rows, edges, baseId, slots, 0, want, limit, f, taken, 0);
      forall i | 0 <= i < |slots|
        ensures CountSlot(FillSlots(rows, edges, baseId, slots, 0, want, limit, f).chosen, i) <= Max(0, slots[i].max)
      {
        FillSlotsOk(rows, edges, baseId, slots, 0, want, limit, f, taken, i);
      }
    }
    hide FillSlots, Uncovered, SlotFits;
  }

  // What filling only ever does: more LoRAs, more ids used, more covered
  predicate Grown(f: Filling, g: Filling) {
    && f.chosen <= g.chosen && f.used <= g.used && f.covered.domains <= g.covered.domains
    && f.covered.content <= g.covered.content && f.covered.features <= g.covered.features
  }

  // Nothing that contributes to the slot is left in the catalog.
  ghost predicate Exhausted(rows: seq<Resource>, edges: Edges, baseId: string, slot: Slot, want: Demand, f: Filling) {
    forall row :: row in rows ==> !Scored(edges, baseId, slot, want, f, row)
  }

  predicate AtLimit(limit: nat, f: Filling) {
    limit > 0 && |f.chosen| >= limit
  }

  lemma OpenShrinks(want: set<string>, less: set<string>, more: set<string>, row: set<string>)
    requires less <= more && |(want - more) * row| > 0
    ensures |(want - less) * row| > 0
  {
    assert (want - more) * row != {};
    var x :| x in (want - more) * row;
    assert x in (want - less) * row;
  }

  lemma StaysExhausted(rows: seq<Resource>, edges: Edges, baseId: string, slot: Slot, want: Demand, f: Filling,
      g: Filling)
    requires Exhausted(rows, edges, baseId, slot, want, f) && Grown(f, g)
    ensures Exhausted(rows, edges, baseId, slot, want, g)
  {
    hide SlotFits;
    forall row | row in rows ensures !Scored(edges, baseId, slot, want, g, row) {
      assert !Scored(edges, baseId, slot, want, f, row);
      if |(want.domains - g.covered.domains) * row.domains| > 0 {
        OpenShrinks(want.domains, f.covered.domains, g.covered.domains, row.domains);
      }
      if |(want.content - g.covered.content) * row.content| > 0 {
        OpenShrinks(want.content, f.covered.content, g.covered.content, row.content);
      }
      if |(want.features - g.covered.features) * row.features| > 0 {
        OpenShrinks(want.features, f.covered.features, g.covered.features, row.features);
      }
    }
  }

  lemma NoPickMeansExhausted(rows: seq<Resource>, edges: Edges, baseId: string, slot: Slot, want: Demand, f: Filling)
    ensures Pick(rows, edges, baseId, slot, want, f).None? <==> Exhausted(rows, edges, baseId, slot, want, f)
  {
    hide Scored;
    var scored := Filter(rows, row => Scored(edges, baseId, slot, want, f, row));
    assert scored != [] ==> scored[0] in scored;
  }

  lemma {:induction false} FillSlotFills(
    rows: seq<Resource>, edges: Edges, baseId: string, slot: Slot, i: nat, n: nat, want: Demand, limit: nat,
    f: Filling, other: nat)
    ensures var g := FillSlot(rows, edges, baseId, slot, i, n, want, limit, f);
            && Grown(f, g)
            && (other != i ==> CountSlot(g.chosen, other) == CountSlot(f.chosen, other))
            && (|| CountSlot(g.chosen, i) == CountSlot(f.chosen, i) + n
                || AtLimit(limit, g) || Exhausted(rows, edges, baseId, slot, want, g))
    decreases n
  {
    hide Pick, Placed, Scored, CountSlot, Exhausted;
    NoPickMeansExhausted(rows, edges, baseId, slot, want, f);
    var pick := Pick(rows, edges, baseId, slot, want, f);
    if n != 0 && !(limit > 0 && |f.chosen| >= limit) && pick.Some? {
      CountPlaced(f, pick.value, i, i);
      CountPlaced(f, pick.value, i, other);
      PlacedGrows(f, pick.value, i);
      FillSlotFills(rows, edges, baseId, slot, i, n - 1, want, limit, Placed(f, pick.value, i), other);
    }
  }

  lemma PlacedGrows(f: Filling, row: Resource, i: nat)
    ensures Grown(f, Placed(f, row, i))
  {
  }

  // Slot `j` has what it can get.
  ghost predicate SlotDone(rows: seq<Resource>, edges: Edges, baseId: string, slots: seq<Slot>, j: nat, want: Demand,
      limit: nat, g: Filling)
    requires j < |slots|
  {
    || CountSlot(g.chosen, j) == Max(0, slots[j].max)
    || AtLimit(limit, g) || Exhausted(rows, edges, baseId, slots[j], want, g)
  }

  lemma {:induction false} FillSlotsFills(
    rows: seq<Resource>, edges: Edges, baseId: string, slots: seq<Slot>, i: nat, want: Demand, limit: nat, f: Filling,
    j: nat)
    requires i <= |slots| && j < |slots|
    requires if i <= j then CountSlot(f.chosen, j) == 0
             else SlotDone(rows, edges, baseId, slots, j, want, limit, f)
    ensures var g := FillSlots(rows, edges, baseId, slots, i, want, limit, f);
            Grown(f, g) && SlotDone(rows, edges, baseId, slots, j, want, limit, g)
    decreases |slots| - i
  {
    hide FillSlot, CountSlot, Exhausted;
    if i < |slots| {
      var n := Max(0, slots[i].max);
      var g := FillSlot(rows, edges, baseId, slots[i], i, n, want, limit, f);
      FillSlotFills(rows, edges, baseId, slots[i], i, n, want, limit, f, j);
      if j < i && Exhausted(rows, edges, baseId, slots[j], want, f) {
        StaysExhausted(rows, edges, baseId, slots[j], want, f, g);
      }
      FillSlotsFills(rows, edges, baseId, slots, i + 1, want, limit, g, j);
    }
  }

  /** The slot filler leaves nothing undone: every slot has its maximum, unless the limit on all LoRAs is reached
      or no LoRA of the catalog that fits the slot contributes anything any more. */
  lemma SlotsAreFilled(
    rows: seq<Resource>, edges: Edges, baseId: string, slots: seq<Slot>, want: Demand, limit: nat, taken: set<string>,
    covered: Coverage, j: nat)
    requires j < |slots|
    ensures var g := FillSlots(rows, edges, baseId, slots, 0, want, limit, Filling([], taken, covered));
            || CountSlot(g.chosen, j) == Max(0, slots[j].max)
            || (limit > 0 && |g.chosen| == limit)
            || forall row :: row in rows ==> !Scored(edges, baseId, slots[j], want, g, row)
  {
    hide FillSlots, CountSlot, Scored;
    var f := Filling([], taken, covered);
    assert CountSlot([], j) == 0 by { NothingCounted(j); }
    FillSlotsFills(rows, edges, baseId, slots, 0, want, limit, f, j);
    SlotsAreFilledWell(rows, edges, baseId, slots, want, limit, taken, covered);
  }

  lemma NothingCounted(j: nat)
    ensures CountSlot([], j) == 0
  {
  }

  // The filling once the LoRAs chosen have been placed, one after the other
  function PlacedAll(f: Filling, chosen: seq<(Resource, nat)>): Filling {
    if chosen == [] then f
    else
      var n := |chosen| - 1;
      Placed(PlacedAll(f, chosen[..n]), chosen[n].0, chosen[n].1)
  }

  // Choice `k` is the best there was for its slot when it was made, and slots are served in order.
  ghost predicate Greedy(rows: seq<Resource>, edges: Edges, baseId: string, slots: seq<Slot>, want: Demand, f: Filling,
      chosen: seq<(Resource, nat)>, k: nat)
    requires k < |chosen|
  {
    && chosen[k].1 < |slots|
    && (k > 0 ==> chosen[k - 1].1 <= chosen[k].1)
    && Pick(rows, edges, baseId, slots[chosen[k].1], want, PlacedAll(f, chosen[..k])) == Some(chosen[k].0)
  }

  ghost predicate AllGreedy(rows: seq<Resource>, edges: Edges, baseId: string, slots: seq<Slot>, want: Demand,
      f: Filling, g: Filling, i: nat)
  {
    && g == PlacedAll(f, g.chosen)
    && (forall k :: 0 <= k < |g.chosen| ==> Greedy(rows, edges, baseId, slots, want, f, g.chosen, k))
    && (g.chosen != [] ==> g.chosen[|g.chosen| - 1].1 <= i)
  }

  lemma OneMoreGreedy(rows: seq<Resource>, edges: Edges, baseId: string, slots: seq<Slot>, want: Demand, f: Filling,
      g: Filling, i: nat)
    requires AllGreedy(rows, edges, baseId, slots, want, f, g, i) && i < |slots|
    requires Pick(rows, edges, baseId, slots[i], want, g).Some?
    ensures var row := Pick(rows, edges, baseId, slots[i], want, g).value;
            AllGreedy(rows, edges, baseId, slots, want, f, Placed(g, row, i), i)
  {
    hide Pick, Placed;
    var row := Pick(rows, edges, baseId, slots[i], want, g).value;
    var n, more := |g.chosen|, g.chosen + [(row, i)];
    assert more[..n] == g.chosen;
    assert Placed(g, row, i).chosen == more by { ChosenMore(g, row, i); }
    forall k | 0 <= k < |more| ensures Greedy(rows, edges, baseId, slots, want, f, more, k) {
      if k < n {
        assert Greedy(rows, edges, baseId, slots, want, f, g.chosen, k);
        assert more[..k] == g.chosen[..k] && more[k] == g.chosen[k];
      }
    }
  }

  lemma ChosenMore(g: Filling, row: Resource, i: nat)
    ensures Placed(g, row, i).chosen == g.chosen + [(row, i)]
  {
  }

  lemma {:induction false} FillSlotGreedy(
    rows: seq<Resource>, edges: Edges, baseId: string, slots: seq<Slot>, i: nat, n: nat, want: Demand, limit: nat,
    f: Filling, g: Filling)
    requires AllGreedy(rows, edges, baseId, slots, want, f, g, i) && i < |slots|
    ensures AllGreedy(rows, edges, baseId, slots, want, f,
                      FillSlot(rows, edges, baseId, slots[i], i, n, want, limit, g), i)
    decreases n
  {
    hide AllGreedy, Pick, Placed;
    var pick := Pick(rows, edges, baseId, slots[i], want, g);
    if n != 0 && !(limit > 0 && |g.chosen| >= limit) && pick.Some? {
      OneMoreGreedy(rows, edges, baseId, slots, want, f, g, i);
      FillSlotGreedy(rows, edges, baseId, slots, i, n - 1, want, limit, f, Placed(g, pick.value, i));
    }
  }

  lemma {:induction false} FillSlotsGreedy(
    rows: seq<Resource>, edges: Edges, baseId: string, slots: seq<Slot>, i: nat, want: Demand, limit: nat,
    f: Filling, g: Filling)
    requires i <= |slots| && AllGreedy(rows, edges, baseId, slots, want, f, g, i)
    ensures AllGreedy(rows, edges, baseId, slots, want, f,
                      FillSlots(rows, edges, baseId, slots, i, want, limit, g), |slots|)
    decreases |slots| - i
  {
    hide AllGreedy, FillSlot;
    LaterSlot(rows, edges, baseId, slots, want, f, g, i, |slots|);
    if i < |slots| {
      var h := FillSlot(rows, edges, baseId, slots[i], i, Max(0, slots[i].max), want, limit, g);
      FillSlotGreedy(rows, edges, baseId, slots, i, Max(0, slots[i].max), want, limit, f, g);
      LaterSlot(rows, edges, baseId, slots, want, f, h, i, i + 1);
      FillSlotsGreedy(rows, edges, baseId, slots, i + 1, want, limit, f, h);
    }
  }

  lemma LaterSlot(rows: seq<Resource>, edges: Edges, baseId: string, slots: seq<Slot>, want: Demand,
      f: Filling, g: Filling, i: nat, j: nat)
    requires AllGreedy(rows, edges, baseId, slots, want, f, g, i) && i <= j
    ensures AllGreedy(rows, edges, baseId, slots, want, f, g, j)
  {
    hide Greedy, PlacedAll;
  }

  /** Slots are served in their order, and each LoRA placed was the best one for its slot given those placed
      before it. */
  lemma SlotsAreFilledGreedily(
    rows: seq<Resource>, edges: Edges, baseId: string, slots: seq<Slot>, want: Demand, limit: nat, taken: set<string>,
    covered: Coverage, k: nat)
    requires var f := Filling([], taken, covered);
             k < |FillSlots(rows, edges, baseId, slots, 0, want, limit, f).chosen|
    ensures var f := Filling([], taken, covered);
            var chosen := FillSlots(rows, edges, baseId, slots, 0, want, limit, f).chosen;
            && chosen[k].1 < |slots| && (k > 0 ==> chosen[k - 1].1 <= chosen[k].1)
            && Pick(rows, edges, baseId, slots[chosen[k].1], want, PlacedAll(f, chosen[..k])) == Some(chosen[k].0)
  {
    hide FillSlots, Pick, Placed;
    var f := Filling([], taken, covered);
    FillSlotsGreedy(rows, edges, baseId, slots, 0, want, limit, f, f);
    var chosen := FillSlots(rows, edges, baseId, slots, 0, want, limit, f).chosen;
    assert Greedy(rows, edges, baseId, slots, want, f, chosen, k);
  }

  // ---------------------------------------------------------------------------
  // Evaluating one preset

  // What the preset names, before its slots are filled
  datatype Parts = Parts(base: Resource, workflow: Option<Resource>, fixed: seq<(Resource, real)>,
                         stages: seq<Option<Resource>>, reasons: seq<Reason>)

  datatype Evaluated =
    | Unusable(preset: Preset, reasons: seq<Reason>)
    | Evaluated(preset: Preset, reasons: seq<Reason>, base: Resource, workflow: Option<Resource>,
                loras: seq<(Resource, real)>, stages: seq<Option<Resource>>, selected: seq<Resource>,
                hits: nat, vram: nat, missing: set<string>)

  // The fixed LoRAs found, and one reason for each that is not
  function FixedLoras(resources: seq<Resource>, named: seq<(string, real)>): (seq<(Resource, real)>, seq<Reason>) {
    if named == [] then ([], [])
    else
      var last := named[|named| - 1];
      var (found, reasons) := FixedLoras(resources, named[..|named| - 1]);
      var row := Get(resources, last.0);
      if row.None? || row.value.kind != Lora then (found, reasons + [NoLora])
        else (found + [(row.value, last.1)], reasons)
  }

  function WorkflowOf(catalog: Catalog, request: Request, d: Definition, base: Resource)
    : (Option<Resource>, seq<Reason>)
  {
    if d.workflowId != "" then
      var row := Get(catalog.resources, d.workflowId);
      (row, When(row.None? || row.value.kind != Workflow, NoWorkflow))
    else if d.workflowSlot then
      (SelectWorkflow(catalog.resources, catalog.compatible, base.id, request.operation,
                      request.features - base.features), [])
    else (None, [])
  }

  function Resolve(catalog: Catalog, request: Request, d: Definition, base: Resource): Parts {
    var adapter := When(base.provider !in catalog.providers, NoAdapter);
    var reach :=
      When(catalog.readyBackends.Some? && (base.provider, base.backend) !in catalog.readyBackends.value, Unreachable);
    var (workflow, workflowReasons) := WorkflowOf(catalog, request, d, base);
    var (fixed, fixedReasons) := FixedLoras(catalog.resources, d.fixedLoras);
    var (stages, stageReasons) := ResolveStages(catalog.resources, workflow, d.stages);
    Parts(base, workflow, fixed, stages, adapter + reach + workflowReasons + fixedReasons + stageReasons)
  }

  function ListOf(row: Option<Resource>): seq<Resource> {
    if row.Some? then [row.value] else []
  }

  function Rows(stages: seq<Option<Resource>>): seq<Resource> {
    if stages == [] then [] else Rows(stages[..|stages| - 1]) + ListOf(stages[|stages| - 1])
  }

  function Firsts<T, U>(pairs: seq<(T, U)>): (r: seq<T>)
    ensures |r| == |pairs| && forall i :: 0 <= i < |r| ==> r[i] == pairs[i].0
  {
    seq(|pairs|, i requires 0 <= i < |pairs| => pairs[i].0)
  }

  function CoverAll(c: Coverage, rows: seq<Resource>): Coverage {
    if rows == [] then c else Covering(CoverAll(c, rows[..|rows| - 1]), rows[|rows| - 1])
  }

  // The rows whose coverage counts before the slots are filled
  function Named(p: Parts): seq<Resource> {
    ListOf(p.workflow) + Rows(p.stages) + Firsts(p.fixed)
  }

  function Initial(preset: Preset, base: Resource): Coverage {
    Coverage(preset.domains + base.domains, preset.content + base.content,
             preset.features + base.features, preset.operations + base.operations)
  }

  function Filled(catalog: Catalog, request: Request, preset: Preset, p: Parts): Filling {
    FillSlots(catalog.resources, catalog.compatible, p.base.id, preset.definition.slots, 0,
              Demand(request.domains, request.content, request.features),
              Max(0, catalog.maxLoras),
              Filling([], set l | l in p.fixed :: l.0.id, CoverAll(Initial(preset, p.base), Named(p))))
  }

  function MechanismsOf(rows: seq<Resource>): set<string> {
    if rows == [] then {} else MechanismsOf(rows[..|rows| - 1]) + Mechanisms(Some(rows[|rows| - 1]))
  }

  function When(failed: bool, reason: Reason): (r: seq<Reason>)
    ensures |r| == 0 <==> !failed
  {
    if failed then [reason] else []
  }

  // `_requirement_failures`
  function Failures(request: Request, d: Definition, p: Parts, c: Coverage): seq<Reason> {
    When(request.operation !in c.operations, OperationNotCovered) +
    When(request.operation != Generate && p.workflow.None?, NeedsWorkflow) +
    When(request.content - c.content != {}, MissingContent(request.content - c.content)) +
    When(request.features - c.features != {}, MissingFeatures(request.features - c.features)) +
    When(request.mechanism != "" &&
          request.mechanism !in d.mechanisms + MechanismsOf(ListOf(p.workflow) + Rows(p.stages)),
         NoMechanism) +
    When(request.operation !in RuntimeOperations(p.base.provider, p.base.backend), AdapterCannot)
  }

  function WithWeight(chosen: seq<(Resource, nat)>): seq<(Resource, real)> {
    seq(|chosen|, i requires 0 <= i < |chosen| => (chosen[i].0, chosen[i].0.weight))
  }

  function SumVram(rows: seq<Resource>): nat {
    if rows == [] then 0 else SumVram(rows[..|rows| - 1]) + rows[|rows| - 1].vram
  }

  function MaxVram(rows: seq<Resource>): nat {
    if rows == [] then 0 else Max(MaxVram(rows[..|rows| - 1]), rows[|rows| - 1].vram)
  }

  // The rows of `more` that are not in the list yet, added in order
  function AddNew(rows: seq<Resource>, more: seq<Resource>): seq<Resource> {
    if more == [] then rows
    else
      var before := AddNew(rows, more[..|more| - 1]);
      if more[|more| - 1] in before then before else before + [more[|more| - 1]]
  }

  function EvaluateWith(catalog: Catalog, request: Request, preset: Preset, p: Parts, f: Filling): (e: Evaluated)
    ensures e.Evaluated?
  {
    var loras := p.fixed + WithWeight(f.chosen);
    var stageRows := Rows(p.stages);
    var vram := p.base.vram + SumVram(Firsts(loras)) + MaxVram(stageRows);
    var reasons := p.reasons + Failures(request, preset.definition, p, f.covered) +
                   When(catalog.vramBudget != 0 && vram > catalog.vramBudget, OverBudget(vram));
    Evaluated(preset, reasons, p.base, p.workflow, loras, p.stages,
              AddNew([p.base] + ListOf(p.workflow) + Firsts(loras), stageRows),
              |request.domains * f.covered.domains|, vram, request.domains - f.covered.domains)
  }

  // `_evaluate_preset`
  function Evaluate(catalog: Catalog, request: Request, preset: Preset): Evaluated {
    var base := Get(catalog.resources, preset.definition.baseId);
    if base.None? || base.value.kind != Model then Unusable(preset, [NoBase])
    else
      var p := Resolve(catalog, request, preset.definition, base.value);
      EvaluateWith(catalog, request, preset, p, Filled(catalog, request, preset, p))
  }

  // ---------------------------------------------------------------------------
  // Choosing

  datatype Source = TaskModel | PersonaPreference | MeasuredPreference | Deterministic

  datatype Plan = Blocked(rejected: seq<(string, seq<Reason>)>) | Ready(winner: Evaluated, source: Source)

  predicate Offered(request: Request, preset: Preset) {
    preset.enabled && preset.kind == request.kind
  }

  predicate Passes(catalog: Catalog, request: Request, preset: Preset) {
    Offered(request, preset) && Evaluate(catalog, request, preset).reasons == []
  }

  function PresetKey(e: Evaluated): Key
    requires e.Evaluated?
  {
    Key(-(e.hits as int), -e.preset.priority, e.vram, e.preset.name, e.preset.id)
  }

  function RankOf(catalog: Catalog, request: Request, preset: Preset): Key {
    var e := Evaluate(catalog, request, preset);
    if e.Evaluated? then PresetKey(e) else Key(0, 0, 0, preset.name, preset.id)
  }

  function Candidates(catalog: Catalog, request: Request, presets: seq<Preset>): seq<Preset> {
    Filter(presets, preset => Passes(catalog, request, preset))
  }

  function WithId(candidates: seq<Preset>, id: string): (r: Option<Preset>)
    ensures r.Some? ==> r.value in candidates && r.value.id == id
    ensures r.None? ==> forall p :: p in candidates ==> p.id != id
  {
    if candidates == [] then None
    else if candidates[0].id == id then Some(candidates[0])
    else WithId(candidates[1..], id)
  }

  function FirstOf(candidates: seq<Preset>, ids: seq<string>): (r: Option<Preset>)
    ensures r.Some? ==> r.value in candidates && r.value.id in ids
  {
    if ids == [] then None
    else
      var match_ := WithId(candidates, ids[0]);
      if match_.Some? then match_ else FirstOf(candidates, ids[1..])
  }

  // `_choose_preset`; `least` is the head of the sorted candidates
  function Choose(candidates: seq<Preset>, prefs: Preferences, least: Preset): (Preset, Source) {
    var model := FirstOf(candidates, if prefs.model != "" then [prefs.model] else []);
    var persona := FirstOf(candidates, prefs.persona);
    var measured := FirstOf(candidates, prefs.measured);
    if model.Some? then (model.value, TaskModel)
    else if persona.Some? then (persona.value, PersonaPreference)
    else if measured.Some? then (measured.value, MeasuredPreference)
    else (least, Deterministic)
  }

  function Rejected(catalog: Catalog, request: Request, presets: seq<Preset>): seq<(string, seq<Reason>)> {
    if presets == [] then []
    else
      var init, last := Rejected(catalog, request, presets[..|presets| - 1]), presets[|presets| - 1];
      if Offered(request, last) && !Passes(catalog, request, last)
      then init + [(last.id, Evaluate(catalog, request, last).reasons)] else init
  }

  // `build_media_plan`
  function Build(catalog: Catalog, request: Request, prefs: Preferences, presets: seq<Preset>): Plan {
    var candidates := Candidates(catalog, request, presets);
    if candidates == [] then
      var rejected := Rejected(catalog, request, presets);
      Blocked(if |rejected| > 20 then rejected[..20] else rejected)
    else
      var least := Best(candidates, preset => RankOf(catalog, request, preset)).value;
      var (winner, source) := Choose(candidates, prefs, least);
      Ready(Evaluate(catalog, request, winner), source)
  }

  // ---------------------------------------------------------------------------
  // What planning promises

  lemma EvaluatePreset(catalog: Catalog, request: Request, preset: Preset)
    ensures Evaluate(catalog, request, preset).preset == preset
    ensures Evaluate(catalog, request, preset).reasons == [] ==> Evaluate(catalog, request, preset).Evaluated?
  {
    hide Resolve, Filled, Failures;
  }

  /** A plan is ready exactly if some enabled preset of the kind has no rejection reason, whatever the
      preferences; the winner is such a preset; and each tier of preferences gives way only if it names no
      such preset. */
  lemma ReadyIff(catalog: Catalog, request: Request, prefs: Preferences, presets: seq<Preset>)
    ensures var plan := Build(catalog, request, prefs, presets);
            && (plan.Ready? <==> exists preset :: preset in presets && Passes(catalog, request, preset))
            && (plan.Ready? ==>
                  && plan.winner.preset in presets && Passes(catalog, request, plan.winner.preset)
                  && plan.winner == Evaluate(catalog, request, plan.winner.preset)
                  && (plan.source != TaskModel ==>
                        forall p :: p in presets && Passes(catalog, request, p) ==>
                          prefs.model == "" || p.id != prefs.model)
                  && (plan.source == TaskModel ==> plan.winner.preset.id == prefs.model)
                  && (plan.source == PersonaPreference ==> plan.winner.preset.id in prefs.persona)
                  && (plan.source == MeasuredPreference ==> plan.winner.preset.id in prefs.measured)
                  && (plan.source == Deterministic ==>
                        forall p :: p in presets && Passes(catalog, request, p) ==>
                          && p.id !in prefs.persona && p.id !in prefs.measured
                          && !Ahead(RankOf(catalog, request, p), RankOf(catalog, request, plan.winner.preset))))
  {
    hide Passes, RankOf, Ahead, Evaluate;
    var candidates := Candidates(catalog, request, presets);
    assert candidates != [] ==> candidates[0] in candidates;
    if candidates != [] {
      BestIsLeast(candidates, preset => RankOf(catalog, request, preset));
      FirstOfIsFirst(candidates, prefs.persona);
      FirstOfIsFirst(candidates, prefs.measured);
      FirstOfIsFirst(candidates, if prefs.model != "" then [prefs.model] else []);
      var least := Best(candidates, preset => RankOf(catalog, request, preset)).value;
      EvaluatePreset(catalog, request, Choose(candidates, prefs, least).0);
    }
  }

  predicate Names(candidates: seq<Preset>, id: string) {
    exists p :: p in candidates && p.id == id
  }

  // The first id that names a candidate decides; there is none only if no id names one.
  lemma {:induction false} FirstOfIsFirst(candidates: seq<Preset>, ids: seq<string>)
    ensures FirstOf(candidates, ids).None? ==> forall p :: p in candidates ==> p.id !in ids
    ensures FirstOf(candidates, ids).Some? ==>
              exists i :: 0 <= i < |ids| && ids[i] == FirstOf(candidates, ids).value.id &&
                          forall j :: 0 <= j < i ==> !Names(candidates, ids[j])
  {
    if ids != [] {
      FirstOfIsFirst(candidates, ids[1..]);
      if WithId(candidates, ids[0]).Some? {
        assert ids[0] == FirstOf(candidates, ids).value.id;
      } else if FirstOf(candidates, ids).Some? {
        var i :| 0 <= i < |ids| - 1 && ids[1..][i] == FirstOf(candidates, ids).value.id &&
                 forall j :: 0 <= j < i ==> !Names(candidates, ids[1..][j]);
        assert ids[i + 1] == FirstOf(candidates, ids).value.id;
        forall j | 0 <= j < i + 1 ensures !Names(candidates, ids[j]) {
          if j > 0 { assert ids[j] == ids[1..][j - 1]; }
        }
      }
    }
  }

  lemma {:induction false} MaxVramIsMax(rows: seq<Resource>)
    ensures forall row :: row in rows ==> row.vram <= MaxVram(rows)
    ensures rows != [] ==> exists row :: row in rows && row.vram == MaxVram(rows)
  {
    if rows != [] {
      MaxVramIsMax(rows[..|rows| - 1]);
      assert rows[|rows| - 1] in rows;
      assert forall row :: row in rows <==> row in rows[..|rows| - 1] || row == rows[|rows| - 1];
    }
  }

  lemma EvaluateVram(catalog: Catalog, request: Request, preset: Preset)
    requires Evaluate(catalog, request, preset).reasons == []
    ensures Evaluate(catalog, request, preset).Evaluated?
    ensures var e := Evaluate(catalog, request, preset);
            && e.vram == e.base.vram + SumVram(Firsts(e.loras)) + MaxVram(Rows(e.stages))
            && (catalog.vramBudget != 0 ==> e.vram <= catalog.vramBudget)
  {
    EvaluatePreset(catalog, request, preset);
    hide Resolve, Filled, Failures, SumVram, MaxVram, Rows, Firsts, AddNew, When;
  }

  /** The estimate is the base and its LoRAs with the most expensive stage beside them, and a ready plan
      keeps it within a budget that is not zero. */
  lemma VramWithinBudget(catalog: Catalog, request: Request, prefs: Preferences, presets: seq<Preset>)
    requires Build(catalog, request, prefs, presets).Ready?
    ensures Build(catalog, request, prefs, presets).winner.Evaluated?
    ensures var e := Build(catalog, request, prefs, presets).winner;
            var resident := e.base.vram + SumVram(Firsts(e.loras));
            && (catalog.vramBudget != 0 ==> e.vram <= catalog.vramBudget)
            && (forall row :: row in Rows(e.stages) ==> resident + row.vram <= e.vram)
            && (if Rows(e.stages) == [] then e.vram == resident
                else exists row :: row in Rows(e.stages) && e.vram == resident + row.vram)
  {
    hide Build, Evaluate, SumVram, Rows, Firsts;
    ReadyIff(catalog, request, prefs, presets);
    var e := Build(catalog, request, prefs, presets).winner;
    EvaluateVram(catalog, request, e.preset);
    MaxVramIsMax(Rows(e.stages));
  }

  // Exactly what the preset, the base or one of the rows has is covered.
  ghost predicate CoversExactly(all: Coverage, c: Coverage, rows: seq<Resource>) {
    && (forall x :: x in all.domains <==> x in c.domains || exists row :: row in rows && x in row.domains)
    && (forall x :: x in all.content <==> x in c.content || exists row :: row in rows && x in row.content)
    && (forall x :: x in all.features <==> x in c.features || exists row :: row in rows && x in row.features)
    && (forall x :: x in all.operations <==> x in c.operations || exists row :: row in rows && x in row.operations)
  }

  lemma {:induction false} CoverAllFrom(c: Coverage, rows: seq<Resource>)
    ensures CoversExactly(CoverAll(c, rows), c, rows)
  {
    if rows != [] {
      CoverAllFrom(c, rows[..|rows| - 1]);
      assert forall row :: row in rows <==> row in rows[..|rows| - 1] || row == rows[|rows| - 1];
    }
  }

  ghost predicate CoversChosen(c: Coverage, f: Filling) {
    f.covered == CoverAll(c, Firsts(f.chosen))
  }

  lemma PlacedCovers(c: Coverage, f: Filling, row: Resource, i: nat)
    requires CoversChosen(c, f)
    ensures CoversChosen(c, Placed(f, row, i))
  {
    var g := Placed(f, row, i);
    assert Firsts(g.chosen) == Firsts(f.chosen) + [row];
    assert (Firsts(f.chosen) + [row])[..|f.chosen|] == Firsts(f.chosen);
  }

  lemma {:induction false} FillSlotCovers(
    rows: seq<Resource>, edges: Edges, baseId: string, slot: Slot, i: nat, n: nat, want: Demand, limit: nat,
    f: Filling, c: Coverage)
    requires CoversChosen(c, f)
    ensures CoversChosen(c, FillSlot(rows, edges, baseId, slot, i, n, want, limit, f))
    decreases n
  {
    hide CoversChosen, Pick, Placed;
    var pick := Pick(rows, edges, baseId, slot, want, f);
    if n != 0 && !(limit > 0 && |f.chosen| >= limit) && pick.Some? {
      PlacedCovers(c, f, pick.value, i);
      FillSlotCovers(rows, edges, baseId, slot, i, n - 1, want, limit, Placed(f, pick.value, i), c);
    }
  }

  lemma {:induction false} FillSlotsCovers(
    rows: seq<Resource>, edges: Edges, baseId: string, slots: seq<Slot>, i: nat, want: Demand, limit: nat,
    f: Filling, c: Coverage)
    requires CoversChosen(c, f) && i <= |slots|
    ensures CoversChosen(c, FillSlots(rows, edges, baseId, slots, i, want, limit, f))
    decreases |slots| - i
  {
    hide CoversChosen, FillSlot;
    if i < |slots| {
      var n := Max(0, slots[i].max);
      FillSlotCovers(rows, edges, baseId, slots[i], i, n, want, limit, f, c);
      FillSlotsCovers(rows, edges, baseId, slots, i + 1, want, limit,
                      FillSlot(rows, edges, baseId, slots[i], i, n, want, limit, f), c);
    }
  }

  lemma {:induction false} AddNewMembers(rows: seq<Resource>, more: seq<Resource>)
    ensures forall x :: x in AddNew(rows, more) <==> x in rows || x in more
  {
    if more != [] {
      AddNewMembers(rows, more[..|more| - 1]);
      assert forall x :: x in more <==> x in more[..|more| - 1] || x == more[|more| - 1];
    }
  }

  lemma {:induction false} MechanismsFrom(rows: seq<Resource>)
    ensures forall m :: m in MechanismsOf(rows) <==> exists row :: row in rows && m in Mechanisms(Some(row))
  {
    hide Mechanisms;
    if rows != [] {
      MechanismsFrom(rows[..|rows| - 1]);
      assert forall row :: row in rows <==> row in rows[..|rows| - 1] || row == rows[|rows| - 1];
    }
  }

  // What is selected is what coverage was computed from.
  lemma SelectedIs(catalog: Catalog, request: Request, preset: Preset, p: Parts, f: Filling)
    ensures forall row :: row in EvaluateWith(catalog, request, preset, p, f).selected <==>
                            row == p.base || row in Named(p) || row in Firsts(f.chosen)
  {
    var loras := p.fixed + WithWeight(f.chosen);
    AddNewMembers([p.base] + ListOf(p.workflow) + Firsts(loras), Rows(p.stages));
    assert Firsts(loras) == Firsts(p.fixed) + Firsts(f.chosen);
    hide Failures, Rows, AddNew, SumVram, MaxVram;
  }

  lemma CoversTwice(all: Coverage, mid: Coverage, c: Coverage, some: seq<Resource>, more: seq<Resource>,
      rows: seq<Resource>)
    requires CoversExactly(mid, c, some) && CoversExactly(all, mid, more)
    requires forall row :: row in rows <==> row in some || row in more
    ensures CoversExactly(all, c, rows)
  {
  }

  function PresetCoverage(preset: Preset): Coverage {
    Coverage(preset.domains, preset.content, preset.features, preset.operations)
  }

  lemma BaseCovers(preset: Preset, base: Resource)
    ensures CoversExactly(Initial(preset, base), PresetCoverage(preset), [base])
  {
  }

  // Coverage is exactly what the preset and the resources selected with it have.
  lemma CoverageIsSelected(catalog: Catalog, request: Request, preset: Preset, base: Resource)
    ensures var p := Resolve(catalog, request, preset.definition, base);
            var f := Filled(catalog, request, preset, p);
            CoversExactly(f.covered, PresetCoverage(preset), EvaluateWith(catalog, request, preset, p, f).selected)
  {
    var p := Resolve(catalog, request, preset.definition, base);
    var f := Filled(catalog, request, preset, p);
    var initial := Initial(preset, p.base);
    var c := CoverAll(initial, Named(p));
    FilledCovers(catalog, request, preset, p);
    CoverAllFrom(c, Firsts(f.chosen));
    CoverAllFrom(initial, Named(p));
    SelectedIs(catalog, request, preset, p, f);
    BaseCovers(preset, p.base);
    hide Resolve, Filled, CoverAll, EvaluateWith, Named, Firsts, CoversExactly, Initial, PresetCoverage;
    CoversTwice(c, initial, PresetCoverage(preset), [p.base], Named(p), [p.base] + Named(p));
    CoversTwice(f.covered, c, PresetCoverage(preset), [p.base] + Named(p), Firsts(f.chosen),
                EvaluateWith(catalog, request, preset, p, f).selected);
  }

  lemma FilledCovers(catalog: Catalog, request: Request, preset: Preset, p: Parts)
    ensures CoversChosen(CoverAll(Initial(preset, p.base), Named(p)), Filled(catalog, request, preset, p))
  {
    var c := CoverAll(Initial(preset, p.base), Named(p));
    var taken := set l | l in p.fixed :: l.0.id;
    assert CoversChosen(c, Filling([], taken, c));
    FillSlotsCovers(catalog.resources, catalog.compatible, p.base.id, preset.definition.slots, 0,
                    Demand(request.domains, request.content, request.features), Max(0, catalog.maxLoras),
                    Filling([], taken, c), c);
    hide FillSlots, CoversChosen, CoverAll, Named;
  }

  // What was asked comes from the preset or from a resource selected with it, and the adapter runs it.
  ghost predicate Meets(request: Request, e: Evaluated)
    requires e.Evaluated?
  {
    && e.base in e.selected && e.base.kind == Model
    && (forall x :: x in request.content ==>
          x in e.preset.content || exists row :: row in e.selected && x in row.content)
    && (forall x :: x in request.features ==>
          x in e.preset.features || exists row :: row in e.selected && x in row.features)
    && (request.operation in e.preset.operations ||
        exists row :: row in e.selected && request.operation in row.operations)
    && request.operation in RuntimeOperations(e.base.provider, e.base.backend)
    && (request.operation != Generate ==> e.workflow.Some?)
    && (request.mechanism == "" || request.mechanism in e.preset.definition.mechanisms ||
        exists row :: Runs(e, row) && request.mechanism in Mechanisms(Some(row)))
  }

  // The workflow of the plan or of one of its stages
  predicate Runs(e: Evaluated, row: Resource)
    requires e.Evaluated?
  {
    e.workflow == Some(row) || Some(row) in e.stages
  }

  lemma {:induction false} RowsAre(stages: seq<Option<Resource>>)
    ensures forall row :: row in Rows(stages) <==> Some(row) in stages
  {
    if stages != [] {
      RowsAre(stages[..|stages| - 1]);
      assert forall row: Option<Resource> ::
          row in stages <==> row in stages[..|stages| - 1] || row == stages[|stages| - 1];
    }
  }

  /** A ready plan can do what was asked: each required tag and feature, the operation and the identity
      mechanism comes from the preset or from a resource selected with it, and the adapter runs the operation. */
  lemma ReadyMeetsRequirements(catalog: Catalog, request: Request, prefs: Preferences, presets: seq<Preset>)
    requires Build(catalog, request, prefs, presets).Ready?
    ensures Build(catalog, request, prefs, presets).winner.Evaluated?
    ensures Meets(request, Build(catalog, request, prefs, presets).winner)
  {
    hide Build, Evaluate, Meets;
    ReadyIff(catalog, request, prefs, presets);
    PassingMeets(catalog, request, Build(catalog, request, prefs, presets).winner.preset);
  }

  lemma FailuresIff(request: Request, d: Definition, p: Parts, c: Coverage)
    ensures Failures(request, d, p, c) == [] <==>
              && request.operation in c.operations && request.content <= c.content && request.features <= c.features
              && request.operation in RuntimeOperations(p.base.provider, p.base.backend)
              && (request.operation != Generate ==> p.workflow.Some?)
              && (request.mechanism == "" || request.mechanism in d.mechanisms ||
                  exists row :: row in ListOf(p.workflow) + Rows(p.stages) &&
                                request.mechanism in Mechanisms(Some(row)))
  {
    hide RuntimeOperations, Mechanisms, MechanismsOf, Rows, ListOf, When;
    MechanismsFrom(ListOf(p.workflow) + Rows(p.stages));
    NoneMissing(request.content, c.content);
    NoneMissing(request.features, c.features);
  }

  lemma NoneMissing(wanted: set<string>, covered: set<string>)
    ensures wanted - covered == {} <==> wanted <= covered
  {
    assert forall x :: x in wanted && x !in covered ==> x in wanted - covered;
  }

  predicate LoraThere(resources: seq<Resource>, id: string) {
    Get(resources, id).Some? && Get(resources, id).value.kind == Lora
  }

  // The parts that the definition names are there.
  predicate Resolved(catalog: Catalog, d: Definition, p: Parts) {
    && p.base.provider in catalog.providers
    && (catalog.readyBackends.Some? ==> (p.base.provider, p.base.backend) in catalog.readyBackends.value)
    && (d.workflowId != "" ==> p.workflow.Some? && p.workflow.value.kind == Workflow)
    && (forall i :: 0 <= i < |d.fixedLoras| ==>
          LoraThere(catalog.resources, d.fixedLoras[i].0))
    && (forall i :: 0 <= i < |d.stages| ==> StageThere(catalog.resources, p.workflow, d.stages[i], i))
  }

  // A stage that is named is a workflow of the catalog, the first one is otherwise the preset's own, and every
  // later one takes the picture of the stage before.
  predicate StageThere(resources: seq<Resource>, workflow: Option<Resource>, id: string, i: nat) {
    var row := if id != "" then Get(resources, id) else if i == 0 then workflow else None;
    && (id != "" ==> row.Some? && row.value.kind == Workflow)
    && (i > 0 ==> row.Some? && row.value.sourceBindings)
  }

  lemma {:induction false} StagesIff(resources: seq<Resource>, workflow: Option<Resource>, declared: seq<string>)
    ensures ResolveStages(resources, workflow, declared).1 == [] <==>
              forall i :: 0 <= i < |declared| ==> StageReason(resources, workflow, declared[i], i) == None
  {
    hide StageReason, StageRow;
    if declared != [] {
      StagesIff(resources, workflow, declared[..|declared| - 1]);
    }
  }

  lemma {:induction false} FixedIff(resources: seq<Resource>, named: seq<(string, real)>)
    ensures FixedLoras(resources, named).1 == [] <==>
              forall i :: 0 <= i < |named| ==>
                LoraThere(resources, named[i].0)
  {
    if named != [] {
      FixedIff(resources, named[..|named| - 1]);
    }
  }

  lemma ResolvedIff(catalog: Catalog, request: Request, d: Definition, base: Resource)
    ensures var p := Resolve(catalog, request, d, base);
            p.base == base && (p.reasons == [] <==> Resolved(catalog, d, p))
  {
    hide FixedLoras, ResolveStages, When, SelectWorkflow, StageReason, StageRow;
    var (workflow, workflowReasons) := WorkflowOf(catalog, request, d, base);
    var (stages, stageReasons) := ResolveStages(catalog.resources, workflow, d.stages);
    FixedIff(catalog.resources, d.fixedLoras);
    StagesIff(catalog.resources, workflow, d.stages);
    forall i | 0 <= i < |d.stages|
      ensures StageReason(catalog.resources, workflow, d.stages[i], i) == None <==>
                StageThere(catalog.resources, workflow, d.stages[i], i)
    {
      StageReasonIff(catalog.resources, workflow, d.stages[i], i);
    }
    hide StageThere;
    assert stageReasons == [] <==>
        forall i :: 0 <= i < |d.stages| ==> StageThere(catalog.resources, workflow, d.stages[i], i);
  }

  lemma StageReasonIff(resources: seq<Resource>, workflow: Option<Resource>, id: string, i: nat)
    ensures StageReason(resources, workflow, id, i) == None <==> StageThere(resources, workflow, id, i)
  {
  }

  lemma ReasonsIff(catalog: Catalog, request: Request, preset: Preset, p: Parts, f: Filling)
    ensures var e := EvaluateWith(catalog, request, preset, p, f);
            e.reasons == [] <==>
              && p.reasons == [] && Failures(request, preset.definition, p, f.covered) == []
              && (catalog.vramBudget != 0 ==> e.vram <= catalog.vramBudget)
  {
    hide Failures, Rows, Firsts, WithWeight, SumVram, MaxVram, AddNew;
  }

  lemma MeetsIff(catalog: Catalog, request: Request, preset: Preset, base: Resource)
    requires base.kind == Model
    ensures var p := Resolve(catalog, request, preset.definition, base);
            var f := Filled(catalog, request, preset, p);
            Failures(request, preset.definition, p, f.covered) == [] <==>
              Meets(request, EvaluateWith(catalog, request, preset, p, f))
  {
    var p := Resolve(catalog, request, preset.definition, base);
    var f := Filled(catalog, request, preset, p);
    assert p.base == base by { hide WorkflowOf, FixedLoras, ResolveStages; }
    CoverageIsSelected(catalog, request, preset, base);
    SelectedIs(catalog, request, preset, p, f);
    FailuresIff(request, preset.definition, p, f.covered);
    RowsAre(p.stages);
    hide Resolve, Filled, Failures, Rows, AddNew, SumVram, MaxVram, Firsts, Mechanisms, RuntimeOperations;
  }

  // What the source requires of a preset, in terms of the catalog and of what was selected
  ghost predicate Serves(catalog: Catalog, request: Request, preset: Preset, e: Evaluated) {
    && preset.enabled && preset.kind == request.kind && e.Evaluated?
    && Get(catalog.resources, preset.definition.baseId) == Some(e.base)
    && Resolved(catalog, preset.definition, Parts(e.base, e.workflow, [], e.stages, []))
    && Meets(request, e)
    && (catalog.vramBudget != 0 ==> e.vram <= catalog.vramBudget)
  }

  /** A preset is a candidate exactly if it is enabled and of the kind, its base is a model whose provider is
      installed and whose backend is reachable, every workflow, LoRA and stage that it names is there, what was
      asked is supplied and can be run, and the estimate is within a budget that is not zero. */
  lemma PassesIff(catalog: Catalog, request: Request, preset: Preset)
    ensures Passes(catalog, request, preset) <==>
              Serves(catalog, request, preset, Evaluate(catalog, request, preset))
  {
    hide Resolve, Filled, EvaluateWith, Resolved, Meets;
    var base := Get(catalog.resources, preset.definition.baseId);
    if base.Some? && base.value.kind == Model {
      var p := Resolve(catalog, request, preset.definition, base.value);
      var f := Filled(catalog, request, preset, p);
      ResolvedIff(catalog, request, preset.definition, base.value);
      MeetsIff(catalog, request, preset, base.value);
      ReasonsIff(catalog, request, preset, p, f);
      EvaluatedParts(catalog, request, preset, p, f);
      SameResolved(catalog, preset.definition, p, Parts(p.base, p.workflow, [], p.stages, []));
    }
  }

  lemma EvaluatedParts(catalog: Catalog, request: Request, preset: Preset, p: Parts, f: Filling)
    ensures var e := EvaluateWith(catalog, request, preset, p, f);
            e.preset == preset && e.base == p.base && e.workflow == p.workflow && e.stages == p.stages
  {
    hide Failures, Rows, Firsts, WithWeight, SumVram, MaxVram, AddNew;
  }

  lemma SameResolved(catalog: Catalog, d: Definition, p: Parts, q: Parts)
    requires p.base == q.base && p.workflow == q.workflow
    ensures Resolved(catalog, d, p) <==> Resolved(catalog, d, q)
  {
  }

  lemma PassingMeets(catalog: Catalog, request: Request, preset: Preset)
    requires Passes(catalog, request, preset)
    ensures Evaluate(catalog, request, preset).Evaluated? && Meets(request, Evaluate(catalog, request, preset))
  {
    hide Passes, Evaluate, Meets, Resolved;
    PassesIff(catalog, request, preset);
  }

  /** An edit is ready only on the local backend that runs workflows, and generation only on an adapter that is
      known; with an identity mechanism that the preset does not declare, some workflow of the plan controls
      identity: a generating one for the adapter, one that takes a source picture for the second pass. */
  lemma ReadyRuns(catalog: Catalog, request: Request, prefs: Preferences, presets: seq<Preset>)
    requires Build(catalog, request, prefs, presets).Ready?
    ensures Build(catalog, request, prefs, presets).winner.Evaluated?
    ensures var e := Build(catalog, request, prefs, presets).winner;
            var local := e.base.provider == "local-image" && e.base.backend == "comfyui";
            && (request.operation != Generate ==> local && e.workflow.Some?)
            && (local || (e.base.provider == "local-image" && e.base.backend == "automatic1111") ||
                (e.base.provider == "openai-image" && e.base.backend == "openai") ||
                (e.base.provider == "openai-video" && e.base.backend == "openai"))
            && (request.mechanism != "" && request.mechanism !in e.preset.definition.mechanisms ==>
                  exists row :: Runs(e, row) && "identity_control" in row.features && row.identityBindings &&
                    if Generate in row.operations then request.mechanism == "reference_adapter"
                    else row.sourceBindings && request.mechanism == "identity_pass")
  {
    hide Build, Runs;
    ReadyMeetsRequirements(catalog, request, prefs, presets);
    var e := Build(catalog, request, prefs, presets).winner;
    if request.mechanism != "" && request.mechanism !in e.preset.definition.mechanisms {
      var row :| Runs(e, row) && request.mechanism in Mechanisms(Some(row));
      assert Runs(e, row) && "identity_control" in row.features && row.identityBindings;
    }
  }

  /** The domains a preset is credited with are exactly the wanted ones that it or a resource selected with it
      has; the others are reported as missing. */
  lemma DomainsAccounted(catalog: Catalog, request: Request, preset: Preset)
    requires Evaluate(catalog, request, preset).Evaluated?
    ensures var e := Evaluate(catalog, request, preset);
            && (forall x :: x in e.missing <==>
                  x in request.domains && x !in preset.domains && forall row :: row in e.selected ==> x !in row.domains)
            && e.hits + |e.missing| == |request.domains|
  {
    var base := Get(catalog.resources, preset.definition.baseId).value;
    var p := Resolve(catalog, request, preset.definition, base);
    var f := Filled(catalog, request, preset, p);
    CoverageIsSelected(catalog, request, preset, base);
    SplitSize(request.domains, f.covered.domains);
    assert request.domains - request.domains * f.covered.domains == request.domains - f.covered.domains;
    hide Resolve, Filled, Failures, Rows, AddNew, SumVram, MaxVram, Firsts, ListOf;
  }

  // The order of `PresetKey` in its own terms
  lemma RankedBefore(w: Evaluated, e: Evaluated)
    requires w.Evaluated? && e.Evaluated? && !Ahead(PresetKey(e), PresetKey(w))
    ensures e.hits <= w.hits
    ensures e.hits == w.hits ==> e.preset.priority <= w.preset.priority
    ensures e.hits == w.hits && e.preset.priority == w.preset.priority ==> w.vram <= e.vram
  {
  }

  /** Without a preference that applies, no other candidate covers more wanted domains than the winner, none
      that covers as many has a higher priority, and none of equal priority needs less memory. */
  lemma WinnerIsBest(catalog: Catalog, request: Request, prefs: Preferences, presets: seq<Preset>, plan: Plan,
      e: Evaluated)
    requires plan == Build(catalog, request, prefs, presets) && plan.Ready? && plan.source == Deterministic
    requires e.preset in presets && Passes(catalog, request, e.preset) && e == Evaluate(catalog, request, e.preset)
    ensures plan.winner.Evaluated? && e.Evaluated?
    ensures e.hits <= plan.winner.hits
    ensures e.hits == plan.winner.hits ==> e.preset.priority <= plan.winner.preset.priority
    ensures e.hits == plan.winner.hits && e.preset.priority == plan.winner.preset.priority ==>
            plan.winner.vram <= e.vram
  {
    hide Build, Evaluate, Ahead, PresetKey;
    ReadyIff(catalog, request, prefs, presets);
    EvaluatePreset(catalog, request, e.preset);
    EvaluatePreset(catalog, request, plan.winner.preset);
    RankedBefore(plan.winner, e);
  }

  /** The workflow chosen is a compatible one that runs the operation, and none of those covers more of the
      missing features, or as many with a higher priority. */
  lemma WorkflowIsBest(rows: seq<Resource>, edges: Edges, baseId: string, operation: Operation, missing: set<string>,
      row: Resource)
    requires row in rows && row.kind == Workflow && operation in row.operations
    requires row.id in edges && baseId in edges[row.id]
    ensures var w := SelectWorkflow(rows, edges, baseId, operation, missing);
            && w.Some? && w.value in rows && w.value.kind == Workflow && operation in w.value.operations
            && w.value.id in edges && baseId in edges[w.value.id]
            && |missing * row.features| <= |missing * w.value.features|
            && (|missing * row.features| == |missing * w.value.features| ==> row.priority <= w.value.priority)
  {
    var fitting := Filter(rows, row => WorkflowFits(edges, baseId, operation, row));
    BestIsLeast(fitting, row => WorkflowKey(missing, row));
  }

  // What a LoRA adds: one for each wanted domain, two for each wanted tag or feature still open
  function Adds(want: Demand, c: Coverage, row: Resource): nat {
    |(want.domains - c.domains) * row.domains| + 2 * |(want.content - c.content) * row.content| +
    2 * |(want.features - c.features) * row.features|
  }

  // A LoRA not used yet that is compatible with the base and shares a domain and a tag with the slot, where
  // the slot asks for some
  predicate MayFill(edges: Edges, baseId: string, slot: Slot, f: Filling, row: Resource) {
    && row.kind == Lora && row.id !in f.used && row.id in edges && baseId in edges[row.id]
    && (slot.domains == {} || row.domains * slot.domains != {})
    && (slot.content == {} || row.content * slot.content != {})
  }

  /** The LoRA picked for a slot may fill it and adds something, and no other one that may adds more, or as much
      with a higher priority, or as much with equal priority for less memory. */
  lemma PickIsBest(rows: seq<Resource>, edges: Edges, baseId: string, slot: Slot, want: Demand, f: Filling,
      row: Resource)
    requires row in rows && MayFill(edges, baseId, slot, f, row) && Adds(want, f.covered, row) > 0
    ensures var pick := Pick(rows, edges, baseId, slot, want, f);
            && pick.Some? && pick.value in rows && MayFill(edges, baseId, slot, f, pick.value)
            && Adds(want, f.covered, pick.value) >= Adds(want, f.covered, row)
            && (Adds(want, f.covered, pick.value) == Adds(want, f.covered, row) ==>
                  && row.priority <= pick.value.priority
                  && (row.priority == pick.value.priority ==> pick.value.vram <= row.vram))
  {
    var scored := Filter(rows, row => Scored(edges, baseId, slot, want, f, row));
    assert Scored(edges, baseId, slot, want, f, row) && row in scored;
    BestIsLeast(scored, row => LoraKey(want, f.covered, row));
  }

  lemma {:induction false} FixedAre(resources: seq<Resource>, named: seq<(string, real)>)
    requires FixedLoras(resources, named).1 == []
    ensures var found := FixedLoras(resources, named).0;
            && |found| == |named|
            && forall i :: 0 <= i < |named| ==>
                 && found[i].0 in resources && found[i].0.id == named[i].0 && found[i].0.kind == Lora
                 && found[i].1 == named[i].1
  {
    if named != [] {
      FixedAre(resources, named[..|named| - 1]);
    }
  }

  // The LoRAs of a preset: those it names, with the weights it gives them, then those that fill its slots, with
  // their own weights
  predicate LorasAre(preset: Preset, loras: seq<(Resource, real)>, chosen: seq<(Resource, nat)>) {
    var named := preset.definition.fixedLoras;
    && |loras| == |named| + |chosen|
    && (forall i :: 0 <= i < |named| ==> loras[i].0.id == named[i].0 && loras[i].1 == named[i].1)
    && (forall i :: 0 <= i < |chosen| ==>
          loras[|named| + i] == (chosen[i].0, chosen[i].0.weight) && chosen[i].1 < |preset.definition.slots|)
  }

  lemma PassingParts(catalog: Catalog, request: Request, preset: Preset) returns (p: Parts, g: Filling)
    requires Passes(catalog, request, preset)
    ensures Evaluate(catalog, request, preset).Evaluated?
    ensures var e := Evaluate(catalog, request, preset);
            && p == Resolve(catalog, request, preset.definition, e.base) && g == Filled(catalog, request, preset, p)
            && p.base == e.base && e == EvaluateWith(catalog, request, preset, p, g)
            && p.fixed == FixedLoras(catalog.resources, preset.definition.fixedLoras).0
            && FixedLoras(catalog.resources, preset.definition.fixedLoras).1 == []
  {
    hide Filled, WorkflowOf, FixedLoras, ResolveStages, When, EvaluateWith;
    var base := Get(catalog.resources, preset.definition.baseId).value;
    p := Resolve(catalog, request, preset.definition, base);
    g := Filled(catalog, request, preset, p);
    ReasonsIff(catalog, request, preset, p, g);
    EvaluatedParts(catalog, request, preset, p, g);
  }

  /** A candidate's slots are filled as well as the catalog allows: its LoRAs are the named ones and, beside them,
      distinct others that fit their slots; and every slot has its maximum, unless the limit on filled LoRAs is
      reached or no LoRA that may fill it adds anything to what was asked any more. */
  lemma PresetIsFilled(catalog: Catalog, request: Request, preset: Preset) returns (g: Filling)
    requires Passes(catalog, request, preset)
    ensures Evaluate(catalog, request, preset).Evaluated?
    ensures var e, slots := Evaluate(catalog, request, preset), preset.definition.slots;
            var want := Demand(request.domains, request.content, request.features);
            && LorasAre(preset, e.loras, g.chosen) && DistinctIds(g.chosen)
            && (forall c :: c in g.chosen ==>
                  && c.0 in catalog.resources && SlotFits(catalog.compatible, e.base.id, slots[c.1], c.0)
                  && forall n :: n in preset.definition.fixedLoras ==> c.0.id != n.0)
            && (catalog.maxLoras > 0 ==> |g.chosen| <= catalog.maxLoras)
            && (forall j :: 0 <= j < |slots| ==>
                  || CountSlot(g.chosen, j) == Max(0, slots[j].max)
                  || (catalog.maxLoras > 0 && |g.chosen| == catalog.maxLoras)
                  || NothingAdds(catalog, e.base.id, slots[j], want, g))
  {
    hide Evaluate, Resolve, FixedLoras, EvaluateWith, Passes, FillSlots, CoverAll, SlotFits, CountSlot;
    var p, h := PassingParts(catalog, request, preset);
    g := h;
    var slots, want := preset.definition.slots, Demand(request.domains, request.content, request.features);
    var taken := set l | l in p.fixed :: l.0.id;
    var covered := CoverAll(Initial(preset, p.base), Named(p));
    var limit := Max(0, catalog.maxLoras);
    SlotsAreFilledWell(catalog.resources, catalog.compatible, p.base.id, slots, want, limit, taken, covered);
    FixedAre(catalog.resources, preset.definition.fixedLoras);
    LorasOf(catalog, request, preset, p, g);
    FixedTaken(preset, p, taken);
    hide NothingAdds;
    forall j | 0 <= j < |slots|
      ensures || CountSlot(g.chosen, j) == Max(0, slots[j].max)
              || (catalog.maxLoras > 0 && |g.chosen| == catalog.maxLoras)
              || NothingAdds(catalog, p.base.id, slots[j], want, g)
    {
      SlotIsDone(catalog, p.base.id, slots, want, taken, covered, j);
    }
  }

  lemma SlotIsDone(catalog: Catalog, baseId: string, slots: seq<Slot>, want: Demand, taken: set<string>,
      covered: Coverage, j: nat)
    requires j < |slots|
    ensures var g := FillSlots(catalog.resources, catalog.compatible, baseId, slots, 0, want, Max(0, catalog.maxLoras),
                               Filling([], taken, covered));
            || CountSlot(g.chosen, j) == Max(0, slots[j].max)
            || (catalog.maxLoras > 0 && |g.chosen| == catalog.maxLoras)
            || NothingAdds(catalog, baseId, slots[j], want, g)
  {
    hide FillSlots, CountSlot, Scored, NothingAdds;
    var limit := Max(0, catalog.maxLoras);
    var g := FillSlots(catalog.resources, catalog.compatible, baseId, slots, 0, want, limit,
                       Filling([], taken, covered));
    SlotsAreFilled(catalog.resources, catalog.compatible, baseId, slots, want, limit, taken, covered, j);
    if forall row :: row in catalog.resources ==> !Scored(catalog.compatible, baseId, slots[j], want, g, row) {
      NothingScored(catalog, baseId, slots[j], want, g);
    }
  }

  // No LoRA that may fill the slot adds anything any more.
  predicate NothingAdds(catalog: Catalog, baseId: string, slot: Slot, want: Demand, g: Filling) {
    forall row | row in catalog.resources && MayFill(catalog.compatible, baseId, slot, g, row) ::
      Adds(want, g.covered, row) == 0
  }

  lemma NothingScored(catalog: Catalog, baseId: string, slot: Slot, want: Demand, g: Filling)
    requires forall row :: row in catalog.resources ==> !Scored(catalog.compatible, baseId, slot, want, g, row)
    ensures NothingAdds(catalog, baseId, slot, want, g)
  {
    hide Scored, MayFill, Adds;
    forall row | row in catalog.resources && MayFill(catalog.compatible, baseId, slot, g, row)
      ensures Adds(want, g.covered, row) == 0
    {
      ScoredIff(catalog.compatible, baseId, slot, want, g, row);
    }
  }

  lemma ScoredIff(edges: Edges, baseId: string, slot: Slot, want: Demand, f: Filling, row: Resource)
    ensures Scored(edges, baseId, slot, want, f, row) <==>
              MayFill(edges, baseId, slot, f, row) && Adds(want, f.covered, row) > 0
  {
  }

  lemma LorasOf(catalog: Catalog, request: Request, preset: Preset, p: Parts, g: Filling)
    ensures EvaluateWith(catalog, request, preset, p, g).loras == p.fixed + WithWeight(g.chosen)
  {
    hide Failures, Rows, Firsts, WithWeight, SumVram, MaxVram, AddNew;
  }

  lemma FixedTaken(preset: Preset, p: Parts, taken: set<string>)
    requires taken == (set l | l in p.fixed :: l.0.id) && |p.fixed| == |preset.definition.fixedLoras|
    requires forall i :: 0 <= i < |p.fixed| ==> p.fixed[i].0.id == preset.definition.fixedLoras[i].0
    ensures forall n :: n in preset.definition.fixedLoras ==> n.0 in taken
  {
    forall n | n in preset.definition.fixedLoras ensures n.0 in taken {
      var i :| 0 <= i < |p.fixed| && preset.definition.fixedLoras[i] == n;
      assert p.fixed[i] in p.fixed;
    }
  }

  /** The workflow of a candidate is the one its preset names, or else, if the preset leaves it open, the best
      compatible one for the operation and the features that the base lacks, or else none. */
  lemma WorkflowIs(catalog: Catalog, request: Request, preset: Preset)
    requires Passes(catalog, request, preset)
    ensures Evaluate(catalog, request, preset).Evaluated?
    ensures var e, d := Evaluate(catalog, request, preset), preset.definition;
            e.workflow ==
              if d.workflowId != "" then Get(catalog.resources, d.workflowId)
              else if d.workflowSlot then
                SelectWorkflow(catalog.resources, catalog.compatible, e.base.id, request.operation,
                               request.features - e.base.features)
              else None
  {
    hide Evaluate, EvaluateWith, FixedLoras, ResolveStages, When, SelectWorkflow, Filled, Passes;
    var p, g := PassingParts(catalog, request, preset);
    EvaluatedParts(catalog, request, preset, p, g);
  }

  lemma WhenSays(failed: bool, reason: Reason, r: Reason)
    ensures r in When(failed, reason) <==> failed && r == reason
  {
  }

  lemma InAny<T>(a: seq<T>, b: seq<T>, c: seq<T>, d: seq<T>, e: seq<T>, f: seq<T>, x: T)
    ensures x in a + b + c + d + e + f <==> x in a || x in b || x in c || x in d || x in e || x in f
  {
  }

  lemma FailuresSay(request: Request, d: Definition, p: Parts, c: Coverage, r: Reason)
    ensures r in Failures(request, d, p, c) <==>
              match r
              case OperationNotCovered => request.operation !in c.operations
              case NeedsWorkflow => request.operation != Generate && p.workflow.None?
              case MissingContent(x) => x == request.content - c.content && x != {}
              case MissingFeatures(x) => x == request.features - c.features && x != {}
              case NoMechanism =>
                request.mechanism != "" &&
                request.mechanism !in d.mechanisms + MechanismsOf(ListOf(p.workflow) + Rows(p.stages))
              case AdapterCannot => request.operation !in RuntimeOperations(p.base.provider, p.base.backend)
              case _ => false
  {
    hide When, RuntimeOperations, MechanismsOf, Rows, ListOf;
    var noMechanism := request.mechanism != "" &&
      request.mechanism !in d.mechanisms + MechanismsOf(ListOf(p.workflow) + Rows(p.stages));
    var cannot := request.operation !in RuntimeOperations(p.base.provider, p.base.backend);
    WhenSays(request.operation !in c.operations, OperationNotCovered, r);
    WhenSays(request.operation != Generate && p.workflow.None?, NeedsWorkflow, r);
    WhenSays(request.content - c.content != {}, MissingContent(request.content - c.content), r);
    WhenSays(request.features - c.features != {}, MissingFeatures(request.features - c.features), r);
    WhenSays(noMechanism, NoMechanism, r);
    WhenSays(cannot, AdapterCannot, r);
    InAny(When(request.operation !in c.operations, OperationNotCovered),
          When(request.operation != Generate && p.workflow.None?, NeedsWorkflow),
          When(request.content - c.content != {}, MissingContent(request.content - c.content)),
          When(request.features - c.features != {}, MissingFeatures(request.features - c.features)),
          When(noMechanism, NoMechanism), When(cannot, AdapterCannot), r);
  }

  lemma {:induction false} StagesSay(resources: seq<Resource>, workflow: Option<Resource>, declared: seq<string>)
    ensures forall r :: r in ResolveStages(resources, workflow, declared).1 ==>
              r.StageMissing? || r.StageEmpty? || r.StageUnbound?
  {
    if declared != [] {
      StagesSay(resources, workflow, declared[..|declared| - 1]);
    }
  }

  lemma {:induction false} FixedSay(resources: seq<Resource>, named: seq<(string, real)>)
    ensures forall r :: r in FixedLoras(resources, named).1 ==> r == NoLora
  {
    if named != [] {
      FixedSay(resources, named[..|named| - 1]);
    }
  }

  lemma ResolveSays(catalog: Catalog, request: Request, d: Definition, base: Resource, r: Reason)
    ensures r in Resolve(catalog, request, d, base).reasons ==>
              r.NoAdapter? || r.Unreachable? || r.NoWorkflow? || r.NoLora? || r.StageMissing? || r.StageEmpty? ||
              r.StageUnbound?
    ensures NoAdapter in Resolve(catalog, request, d, base).reasons <==> base.provider !in catalog.providers
    ensures Unreachable in Resolve(catalog, request, d, base).reasons <==>
              catalog.readyBackends.Some? && (base.provider, base.backend) !in catalog.readyBackends.value
  {
    hide FixedLoras, ResolveStages, SelectWorkflow;
    StagesSay(catalog.resources, WorkflowOf(catalog, request, d, base).0, d.stages);
    FixedSay(catalog.resources, d.fixedLoras);
  }

  lemma AllSay(catalog: Catalog, request: Request, preset: Preset, p: Parts, f: Filling, r: Reason)
    ensures var e := EvaluateWith(catalog, request, preset, p, f);
            r in e.reasons <==>
              || r in p.reasons || r in Failures(request, preset.definition, p, f.covered)
              || (catalog.vramBudget != 0 && e.vram > catalog.vramBudget && r == OverBudget(e.vram))
  {
    hide Failures, Rows, Firsts, WithWeight, SumVram, MaxVram, AddNew;
  }

  lemma CoveredIff(all: Coverage, preset: Preset, selected: seq<Resource>)
    requires CoversExactly(all, PresetCoverage(preset), selected)
    ensures forall x :: x in all.content <==> x in preset.content || exists row :: row in selected && x in row.content
    ensures forall x :: x in all.features <==>
                          x in preset.features || exists row :: row in selected && x in row.features
    ensures forall x :: x in all.operations <==>
                          x in preset.operations || exists row :: row in selected && x in row.operations
  {
  }

  // Nobody supplies it.
  predicate Unsupplied(supplied: set<string>, rows: seq<Resource>, has: Resource -> set<string>, x: string) {
    x !in supplied && forall row :: row in rows ==> x !in has(row)
  }

  // Whether the reason applies to the preset as evaluated; the others are about stages, LoRAs and workflows that
  // the preset names and the catalog lacks.
  ghost predicate Applies(catalog: Catalog, request: Request, e: Evaluated, r: Reason)
    requires e.Evaluated?
  {
    match r
    case NoAdapter => e.base.provider !in catalog.providers
    case Unreachable =>
      catalog.readyBackends.Some? && (e.base.provider, e.base.backend) !in catalog.readyBackends.value
    case OperationNotCovered =>
      request.operation !in e.preset.operations &&
      forall row :: row in e.selected ==> request.operation !in row.operations
    case NeedsWorkflow => request.operation != Generate && e.workflow.None?
    case MissingContent(missing) =>
      missing != {} &&
      forall x :: x in missing <==>
        x in request.content && Unsupplied(e.preset.content, e.selected, (row: Resource) => row.content, x)
    case MissingFeatures(missing) =>
      missing != {} &&
      forall x :: x in missing <==>
        x in request.features && Unsupplied(e.preset.features, e.selected, (row: Resource) => row.features, x)
    case AdapterCannot => request.operation !in RuntimeOperations(e.base.provider, e.base.backend)
    case OverBudget(vram) => vram == e.vram && catalog.vramBudget != 0 && e.vram > catalog.vramBudget
    case _ => true
  }

  /** The reasons given for a rejected preset are the true ones: one of these reasons is given exactly if it applies,
      and what is missing is named. */
  lemma ReasonsSay(catalog: Catalog, request: Request, preset: Preset, r: Reason)
    requires Evaluate(catalog, request, preset).Evaluated?
    requires !r.NoWorkflow? && !r.NoLora? && !r.StageMissing? && !r.StageEmpty? && !r.StageUnbound?
    requires !r.NoBase? && !r.NoMechanism?
    ensures r in Evaluate(catalog, request, preset).reasons <==>
              Applies(catalog, request, Evaluate(catalog, request, preset), r)
  {
    var base := Get(catalog.resources, preset.definition.baseId).value;
    var p := Resolve(catalog, request, preset.definition, base);
    var f := Filled(catalog, request, preset, p);
    assert p.base == base by { hide WorkflowOf, FixedLoras, ResolveStages; }
    hide Resolve, Filled, Failures, EvaluateWith, RuntimeOperations, CoversExactly, MechanismsOf;
    var e := EvaluateWith(catalog, request, preset, p, f);
    ResolveSays(catalog, request, preset.definition, base, r);
    FailuresSay(request, preset.definition, p, f.covered, r);
    CoverageIsSelected(catalog, request, preset, base);
    CoveredIff(f.covered, preset, e.selected);
    EvaluatedParts(catalog, request, preset, p, f);
    AllSay(catalog, request, preset, p, f, r);
    match r
    case NoAdapter =>
    case Unreachable =>
    case OperationNotCovered =>
    case NeedsWorkflow =>
    case MissingContent(missing) =>
    case MissingFeatures(missing) =>
    case AdapterCannot =>
    case OverBudget(_) =>
  }

  ghost predicate Entry(catalog: Catalog, request: Request, presets: seq<Preset>, entry: (string, seq<Reason>)) {
    exists preset :: preset in presets && Offered(request, preset) && !Passes(catalog, request, preset) &&
                     entry == (preset.id, Evaluate(catalog, request, preset).reasons)
  }

  lemma {:induction false} RejectedAre(catalog: Catalog, request: Request, presets: seq<Preset>)
    ensures var rejected := Rejected(catalog, request, presets);
            && (forall entry :: entry in rejected ==> Entry(catalog, request, presets, entry))
            && (forall preset :: preset in presets && Offered(request, preset) && !Passes(catalog, request, preset) ==>
                  (preset.id, Evaluate(catalog, request, preset).reasons) in rejected)
  {
    hide Evaluate, Passes;
    if presets != [] {
      var init := presets[..|presets| - 1];
      RejectedAre(catalog, request, init);
      assert forall p :: p in presets <==> p in init || p == presets[|presets| - 1];
      forall entry | Entry(catalog, request, init, entry) ensures Entry(catalog, request, presets, entry) {
      }
    }
  }

  /** A blocked plan lists rejected presets with their reasons, at most twenty, and all of them if there are fewer. */
  lemma BlockedLists(catalog: Catalog, request: Request, prefs: Preferences, presets: seq<Preset>)
    requires Build(catalog, request, prefs, presets).Blocked?
    ensures var rejected := Build(catalog, request, prefs, presets).rejected;
            && |rejected| <= 20
            && (forall entry :: entry in rejected ==> Entry(catalog, request, presets, entry))
            && (|rejected| < 20 ==>
                  forall preset :: preset in presets && Offered(request, preset) ==>
                    (preset.id, Evaluate(catalog, request, preset).reasons) in rejected)
  {
    hide Evaluate, Rejected, Entry;
    RejectedAre(catalog, request, presets);
  }

  // The first of these ids that names a candidate names this one.
  ghost predicate FirstNamed(catalog: Catalog, request: Request, presets: seq<Preset>, ids: seq<string>, id: string) {
    exists i :: 0 <= i < |ids| && ids[i] == id &&
                forall j, p | 0 <= j < i && p in presets && Passes(catalog, request, p) :: p.id != ids[j]
  }

  ghost predicate NoneNamed(catalog: Catalog, request: Request, presets: seq<Preset>, ids: seq<string>) {
    forall p :: p in presets && Passes(catalog, request, p) ==> p.id !in ids
  }

  /** The preferences decide in order, each by the first of its ids that names a candidate, and only if no earlier
      one names any: the task model's choice, the persona's, the measured one. */
  lemma PreferencesDecide(catalog: Catalog, request: Request, prefs: Preferences, presets: seq<Preset>)
    requires Build(catalog, request, prefs, presets).Ready?
    ensures var plan := Build(catalog, request, prefs, presets);
            var model, id := if prefs.model == "" then [] else [prefs.model], plan.winner.preset.id;
            match plan.source
            case TaskModel => FirstNamed(catalog, request, presets, model, id)
            case PersonaPreference =>
              NoneNamed(catalog, request, presets, model) && FirstNamed(catalog, request, presets, prefs.persona, id)
            case MeasuredPreference =>
              && NoneNamed(catalog, request, presets, model) && NoneNamed(catalog, request, presets, prefs.persona)
              && FirstNamed(catalog, request, presets, prefs.measured, id)
            case Deterministic =>
              && NoneNamed(catalog, request, presets, model) && NoneNamed(catalog, request, presets, prefs.persona)
              && NoneNamed(catalog, request, presets, prefs.measured)
  {
    hide Passes, RankOf, Evaluate, Best, FirstOf;
    var candidates := Candidates(catalog, request, presets);
    var model := if prefs.model == "" then [] else [prefs.model];
    assert model == if prefs.model != "" then [prefs.model] else [];
    var least := Best(candidates, preset => RankOf(catalog, request, preset)).value;
    EvaluatePreset(catalog, request, Choose(candidates, prefs, least).0);
    FirstOfDecides(catalog, request, presets, model);
    FirstOfDecides(catalog, request, presets, prefs.persona);
    FirstOfDecides(catalog, request, presets, prefs.measured);
    hide FirstNamed, NoneNamed;
  }

  lemma FirstOfDecides(catalog: Catalog, request: Request, presets: seq<Preset>, ids: seq<string>)
    ensures var first := FirstOf(Candidates(catalog, request, presets), ids);
            if first.Some? then FirstNamed(catalog, request, presets, ids, first.value.id)
            else NoneNamed(catalog, request, presets, ids)
  {
    hide Passes, FirstOf;
    var candidates := Candidates(catalog, request, presets);
    FirstOfIsFirst(candidates, ids);
    assert forall p :: p in candidates ==> Names(candidates, p.id);
  }

  // ---------------------------------------------------------------------------
  // The order of enumeration does not matter

  predicate SameRows(a: seq<Resource>, b: seq<Resource>) {
    UniqueIds(a) && (forall x :: x in a ==> x in b) && (forall x :: x in b ==> x in a)
  }

  lemma GetSame(a: seq<Resource>, b: seq<Resource>, id: string)
    requires SameRows(a, b)
    ensures Get(a, id) == Get(b, id)
  {
  }

  lemma FixedSame(a: seq<Resource>, b: seq<Resource>, named: seq<(string, real)>)
    requires SameRows(a, b)
    ensures FixedLoras(a, named) == FixedLoras(b, named)
  {
    if named != [] {
      FixedSame(a, b, named[..|named| - 1]);
      GetSame(a, b, named[|named| - 1].0);
    }
  }

  lemma StagesSame(a: seq<Resource>, b: seq<Resource>, workflow: Option<Resource>, declared: seq<string>)
    requires SameRows(a, b)
    ensures ResolveStages(a, workflow, declared) == ResolveStages(b, workflow, declared)
  {
    if declared != [] {
      StagesSame(a, b, workflow, declared[..|declared| - 1]);
      GetSame(a, b, declared[|declared| - 1]);
    }
  }

  lemma BestOfSame(a: seq<Resource>, b: seq<Resource>, keep: Resource -> bool, key: Resource -> Key)
    requires SameRows(a, b) && forall row :: key(row).id == row.id
    ensures Best(Filter(a, keep), key) == Best(Filter(b, keep), key)
  {
    BestIgnoresOrder(Filter(a, keep), Filter(b, keep), key);
  }

  lemma PickSame(a: seq<Resource>, b: seq<Resource>, edges: Edges, baseId: string, slot: Slot, want: Demand, f: Filling)
    requires SameRows(a, b)
    ensures Pick(a, edges, baseId, slot, want, f) == Pick(b, edges, baseId, slot, want, f)
  {
    hide Contribution, SlotFits, SameRows;
    BestOfSame(a, b, row => Scored(edges, baseId, slot, want, f, row), row => LoraKey(want, f.covered, row));
  }

  lemma WorkflowSame(a: seq<Resource>, b: seq<Resource>, edges: Edges, baseId: string, operation: Operation,
      missing: set<string>)
    requires SameRows(a, b)
    ensures SelectWorkflow(a, edges, baseId, operation, missing) == SelectWorkflow(b, edges, baseId, operation, missing)
  {
    hide WorkflowFits, SameRows;
    BestOfSame(a, b, row => WorkflowFits(edges, baseId, operation, row), row => WorkflowKey(missing, row));
  }

  lemma {:induction false} FillSlotSame(
    a: seq<Resource>, b: seq<Resource>, edges: Edges, baseId: string, slot: Slot, i: nat, n: nat, want: Demand,
    limit: nat, f: Filling)
    requires SameRows(a, b)
    ensures FillSlot(a, edges, baseId, slot, i, n, want, limit, f) ==
              FillSlot(b, edges, baseId, slot, i, n, want, limit, f)
    decreases n
  {
    hide Pick, SameRows;
    PickSame(a, b, edges, baseId, slot, want, f);
    var pick := Pick(a, edges, baseId, slot, want, f);
    if n != 0 && pick.Some? {
      FillSlotSame(a, b, edges, baseId, slot, i, n - 1, want, limit, Placed(f, pick.value, i));
    }
  }

  lemma {:induction false} FillSlotsSame(
    a: seq<Resource>, b: seq<Resource>, edges: Edges, baseId: string, slots: seq<Slot>, i: nat, want: Demand,
    limit: nat, f: Filling)
    requires SameRows(a, b) && i <= |slots|
    ensures FillSlots(a, edges, baseId, slots, i, want, limit, f) ==
              FillSlots(b, edges, baseId, slots, i, want, limit, f)
    decreases |slots| - i
  {
    hide FillSlot, SameRows;
    if i < |slots| {
      var n := Max(0, slots[i].max);
      FillSlotSame(a, b, edges, baseId, slots[i], i, n, want, limit, f);
      FillSlotsSame(a, b, edges, baseId, slots, i + 1, want, limit,
                    FillSlot(a, edges, baseId, slots[i], i, n, want, limit, f));
    }
  }

  predicate SameCatalog(c: Catalog, d: Catalog) {
    SameRows(c.resources, d.resources) && d == c.(resources := d.resources)
  }

  lemma ResolveSame(c: Catalog, d: Catalog, request: Request, def: Definition, base: Resource)
    requires SameCatalog(c, d)
    ensures Resolve(c, request, def, base) == Resolve(d, request, def, base)
  {
    GetSame(c.resources, d.resources, def.workflowId);
    WorkflowSame(c.resources, d.resources, c.compatible, base.id, request.operation, request.features - base.features);
    FixedSame(c.resources, d.resources, def.fixedLoras);
    StagesSame(c.resources, d.resources, WorkflowOf(c, request, def, base).0, def.stages);
    hide FixedLoras, ResolveStages, SelectWorkflow, Get, SameRows, When;
  }

  lemma EvaluateSame(c: Catalog, d: Catalog, request: Request, preset: Preset)
    requires SameCatalog(c, d)
    ensures Evaluate(c, request, preset) == Evaluate(d, request, preset)
  {
    GetSame(c.resources, d.resources, preset.definition.baseId);
    var base := Get(c.resources, preset.definition.baseId);
    if base.Some? {
      ResolveSame(c, d, request, preset.definition, base.value);
      var p := Resolve(c, request, preset.definition, base.value);
      var want := Demand(request.domains, request.content, request.features);
      var f := Filling([], set l | l in p.fixed :: l.0.id, CoverAll(Initial(preset, p.base), Named(p)));
      FillSlotsSame(c.resources, d.resources, c.compatible, p.base.id, preset.definition.slots, 0, want,
                    Max(0, c.maxLoras), f);
      assert Filled(c, request, preset, p) == Filled(d, request, preset, p) by { hide FillSlots, CoverAll, Named; }
      SameEstimate(c, d, request, preset, p, Filled(c, request, preset, p));
    }
    hide Resolve, Filled, Get, SameRows, EvaluateWith;
  }

  lemma SameEstimate(c: Catalog, d: Catalog, request: Request, preset: Preset, p: Parts, f: Filling)
    requires SameCatalog(c, d)
    ensures EvaluateWith(c, request, preset, p, f) == EvaluateWith(d, request, preset, p, f)
  {
    hide SameRows, Failures, AddNew, SumVram, MaxVram, Rows;
  }

  predicate SamePresets(a: seq<Preset>, b: seq<Preset>) {
    && (forall x, y :: x in a && y in a && x.id == y.id ==> x == y)
    && (forall x :: x in a ==> x in b) && (forall x :: x in b ==> x in a)
  }

  lemma WithIdSame(a: seq<Preset>, b: seq<Preset>, id: string)
    requires SamePresets(a, b)
    ensures WithId(a, id) == WithId(b, id)
  {
  }

  lemma {:induction false} FirstOfSame(a: seq<Preset>, b: seq<Preset>, ids: seq<string>)
    requires SamePresets(a, b)
    ensures FirstOf(a, ids) == FirstOf(b, ids)
  {
    hide SamePresets;
    if ids != [] {
      WithIdSame(a, b, ids[0]);
      FirstOfSame(a, b, ids[1..]);
    }
  }

  lemma CandidatesSame(c: Catalog, d: Catalog, request: Request, presets: seq<Preset>, others: seq<Preset>)
    requires SameCatalog(c, d) && SamePresets(presets, others)
    ensures SamePresets(Candidates(c, request, presets), Candidates(d, request, others))
  {
    forall p ensures Evaluate(c, request, p) == Evaluate(d, request, p) { EvaluateSame(c, d, request, p); }
    hide Evaluate, SameCatalog;
  }

  lemma ChooseSame(mine: seq<Preset>, theirs: seq<Preset>, prefs: Preferences, least: Preset)
    requires SamePresets(mine, theirs)
    ensures Choose(mine, prefs, least) == Choose(theirs, prefs, least)
  {
    hide FirstOf, SamePresets;
    FirstOfSame(mine, theirs, prefs.persona);
    FirstOfSame(mine, theirs, prefs.measured);
    FirstOfSame(mine, theirs, if prefs.model != "" then [prefs.model] else []);
  }

  /** A ready plan, its winner with all its resources, its estimate and the tier that chose it do not depend
      on the order in which presets and resources are enumerated. */
  lemma PlanIgnoresOrder(
    c: Catalog, d: Catalog, request: Request, prefs: Preferences, presets: seq<Preset>, others: seq<Preset>)
    requires SameCatalog(c, d) && SamePresets(presets, others)
    ensures Build(c, request, prefs, presets).Ready? ==>
            Build(d, request, prefs, others) == Build(c, request, prefs, presets)
    ensures Build(c, request, prefs, presets).Blocked? <==> Build(d, request, prefs, others).Blocked?
  {
    var mine, theirs := Candidates(c, request, presets), Candidates(d, request, others);
    CandidatesSame(c, d, request, presets, others);
    assert mine != [] ==> mine[0] in theirs;
    assert theirs != [] ==> theirs[0] in mine;
    hide Candidates, SamePresets, SameCatalog, Rejected, Choose, Evaluate;
    if mine != [] {
      forall p ensures Evaluate(c, request, p) == Evaluate(d, request, p) { EvaluateSame(c, d, request, p); }
      LeastSame(c, d, request, mine, theirs);
      ChooseSame(mine, theirs, prefs, Best(mine, preset => RankOf(c, request, preset)).value);
    }
  }

  lemma LeastSame(c: Catalog, d: Catalog, request: Request, mine: seq<Preset>, theirs: seq<Preset>)
    requires SamePresets(mine, theirs) && forall p :: Evaluate(c, request, p) == Evaluate(d, request, p)
    ensures Best(mine, preset => RankOf(c, request, preset)) == Best(theirs, preset => RankOf(d, request, preset))
  {
    var key, keyOther := (preset: Preset) => RankOf(c, request, preset), (preset: Preset) => RankOf(d, request, preset);
    forall p ensures RankOf(c, request, p).id == p.id { EvaluatePreset(c, request, p); }
    hide Evaluate;
    BestIgnoresOrder(mine, theirs, key);
    BestByEqualKeys(theirs, key, keyOther);
  }

  lemma {:induction false} BestByEqualKeys(items: seq<Preset>, key: Preset -> Key, same: Preset -> Key)
    requires forall x :: key(x) == same(x)
    ensures Best(items, key) == Best(items, same)
  {
    if items != [] {
      BestByEqualKeys(items[..|items| - 1], key, same);
    }
  }

  // ---------------------------------------------------------------------------
  // The loops

  // Appending a row to a list appends it to the rows kept.
  lemma FilterMore<T(!new)>(items: seq<T>, keep: T -> bool, i: nat)
    requires i < |items|
    ensures Filter(items[..i + 1], keep) == Filter(items[..i], keep) + if keep(items[i]) then [items[i]] else []
  {
    assert items[..i + 1][..i] == items[..i];
  }

  method PickWorkflow(rows: seq<Resource>, edges: Edges, baseId: string, operation: Operation, missing: set<string>)
    returns (workflow: Option<Resource>)
    ensures workflow == SelectWorkflow(rows, edges, baseId, operation, missing)
  {
    var candidates: seq<Resource> := [];
    var i := 0;
    while i < |rows|
      invariant 0 <= i <= |rows|
      invariant candidates == Filter(rows[..i], row => WorkflowFits(edges, baseId, operation, row))
    {
      FilterMore(rows, row => WorkflowFits(edges, baseId, operation, row), i);
      if WorkflowFits(edges, baseId, operation, rows[i]) {
        candidates := candidates + [rows[i]];
      }
      i := i + 1;
    }
    assert rows[..i] == rows;
    workflow := Best(candidates, row => WorkflowKey(missing, row));
  }

  method PickLora(rows: seq<Resource>, edges: Edges, baseId: string, slot: Slot, want: Demand, f: Filling)
    returns (pick: Option<Resource>)
    ensures pick == Pick(rows, edges, baseId, slot, want, f)
  {
    var scored: seq<Resource> := [];
    var i := 0;
    while i < |rows|
      invariant 0 <= i <= |rows|
      invariant scored == Filter(rows[..i], row => Scored(edges, baseId, slot, want, f, row))
    {
      FilterMore(rows, row => Scored(edges, baseId, slot, want, f, row), i);
      if Scored(edges, baseId, slot, want, f, rows[i]) {
        scored := scored + [rows[i]];
      }
      i := i + 1;
    }
    assert rows[..i] == rows;
    pick := Best(scored, row => LoraKey(want, f.covered, row));
  }

  lemma {:induction false} FullStays(
    rows: seq<Resource>, edges: Edges, baseId: string, slots: seq<Slot>, i: nat, want: Demand, limit: nat, f: Filling)
    requires limit > 0 && |f.chosen| >= limit && i <= |slots|
    ensures FillSlots(rows, edges, baseId, slots, i, want, limit, f) == f
    decreases |slots| - i
  {
    if i < |slots| {
      FullStays(rows, edges, baseId, slots, i + 1, want, limit, f);
    }
  }

  lemma FillSlotStep(
    rows: seq<Resource>, edges: Edges, baseId: string, slot: Slot, i: nat, n: nat, want: Demand, limit: nat, f: Filling)
    ensures var pick := Pick(rows, edges, baseId, slot, want, f);
            var after := FillSlot(rows, edges, baseId, slot, i, n, want, limit, f);
            if n == 0 || (limit > 0 && |f.chosen| >= limit) || pick.None? then after == f
            else after == FillSlot(rows, edges, baseId, slot, i, n - 1, want, limit, Placed(f, pick.value, i))
  {
    hide Pick, Placed;
  }

  // `_fill_slots` returns as soon as the limit is reached.
  method FillOpenSlots(
    rows: seq<Resource>, edges: Edges, baseId: string, slots: seq<Slot>, want: Demand, limit: nat,
    taken: set<string>, covered: Coverage)
    returns (f: Filling)
    ensures f == FillSlots(rows, edges, baseId, slots, 0, want, limit, Filling([], taken, covered))
  {
    hide FillSlot, Pick, Placed;
    f := Filling([], taken, covered);
    ghost var result := FillSlots(rows, edges, baseId, slots, 0, want, limit, f);
    var i := 0;
    while i < |slots|
      invariant 0 <= i <= |slots|
      invariant result == FillSlots(rows, edges, baseId, slots, i, want, limit, f)
    {
      var n := Max(0, slots[i].max);
      while n > 0
        invariant n >= 0
        invariant result == FillSlots(rows, edges, baseId, slots, i + 1, want, limit,
                                      FillSlot(rows, edges, baseId, slots[i], i, n, want, limit, f))
      {
        FillSlotStep(rows, edges, baseId, slots[i], i, n, want, limit, f);
        if limit > 0 && |f.chosen| >= limit {
          FullStays(rows, edges, baseId, slots, i + 1, want, limit, f);
          return;
        }
        var pick := PickLora(rows, edges, baseId, slots[i], want, f);
        if pick.None? {
          break;
        }
        f := Placed(f, pick.value, i);
        n := n - 1;
      }
      FillSlotStep(rows, edges, baseId, slots[i], i, n, want, limit, f);
      i := i + 1;
    }
  }

  method ResolveDeclared(resources: seq<Resource>, workflow: Option<Resource>, declared: seq<string>)
    returns (stages: seq<Option<Resource>>, reasons: seq<Reason>)
    ensures (stages, reasons) == ResolveStages(resources, workflow, declared)
  {
    stages, reasons := [], [];
    var i := 0;
    while i < |declared|
      invariant 0 <= i <= |declared|
      invariant (stages, reasons) == ResolveStages(resources, workflow, declared[..i])
    {
      assert declared[..i + 1][..i] == declared[..i];
      var id := declared[i];
      var row := if id != "" then Get(resources, id) else if i == 0 then workflow else None;
      if id != "" && (row.None? || row.value.kind != Workflow) {
        reasons := reasons + [StageMissing(i)];
      } else if i != 0 && row.None? {
        reasons := reasons + [StageEmpty(i)];
      } else if i != 0 && !row.value.sourceBindings {
        reasons := reasons + [StageUnbound(i)];
      } else {
        stages := stages + [row];
      }
      i := i + 1;
    }
    assert declared[..i] == declared;
  }

  method BuildMediaPlan(catalog: Catalog, request: Request, prefs: Preferences,
      presets: seq<Preset>) returns (plan: Plan)
    ensures plan == Build(catalog, request, prefs, presets)
  {
    hide Evaluate;
    var candidates: seq<Preset> := [];
    var rejected: seq<(string, seq<Reason>)> := [];
    var i := 0;
    while i < |presets|
      invariant 0 <= i <= |presets|
      invariant candidates == Candidates(catalog, request, presets[..i])
      invariant rejected == Rejected(catalog, request, presets[..i])
    {
      FilterMore(presets, preset => Passes(catalog, request, preset), i);
      assert presets[..i + 1][..i] == presets[..i];
      if Offered(request, presets[i]) {
        var evaluated := Evaluate(catalog, request, presets[i]);
        if evaluated.reasons == [] {
          candidates := candidates + [presets[i]];
        } else {
          rejected := rejected + [(presets[i].id, evaluated.reasons)];
        }
      }
      i := i + 1;
    }
    assert presets[..i] == presets;
    if candidates == [] {
      return Blocked(if |rejected| > 20 then rejected[..20] else rejected);
    }
    var least := Best(candidates, preset => RankOf(catalog, request, preset)).value;
    var (winner, source) := Choose(candidates, prefs, least);
    plan := Ready(Evaluate(catalog, request, winner), source);
  }
}
