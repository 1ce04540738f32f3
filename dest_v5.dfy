/**
 * The destination-only script: for each destination plate in
 * `[dest_1, dest_2][:replicates]`, the 20 uL pipette adds the diluent, the
 * two inducers, gradient A from source columns 7..0 and gradient B from one
 * source column, then the 300 uL pipette tops every row-A well up with cells
 * to 100 uL. Only two plates are loaded, so three replicates fill two.
 */
module DestV5 {
  import opened Pipetting
  import FinalV3
  import DualInducer

  /** The 20 uL pipette over-draws 12 uL to dispense 10 uL. */
  const ReagentAsp: real := 12.0
  const ReagentVol: real := 10.0
  const GradientVol: real := 10.0
  /** The 300 uL pipette draws 100 uL of cells for every well. */
  const CellAsp: real := 100.0
  const CellHigh: real := 90.0
  const CellLow: real := 80.0
  /** The number of destination plates the script loads. */
  const LoadedPlates: nat := 2
  const MaxReplicates: int := 3
  /** The system volume every row-A well is made up to. */
  const SystemVol: real := 100.0

  function Dst(plate: nat, column: int): Well { FinalV3.Dst(plate, column) }

  /** `[dest_1, dest_2][:replicates]` with Python's slicing: a negative bound counts from the end. */
  function PlateCount(replicates: int): (n: nat)
    ensures n <= LoadedPlates
  {
    if replicates >= 0 then (if replicates < LoadedPlates then replicates else LoadedPlates)
    else if LoadedPlates + replicates > 0 then LoadedPlates + replicates else 0
  }

  /** With 1 to 3 replicates, min(replicates, 2) plates are filled: three replicates fill two plates. */
  lemma PlateCountAccepted(replicates: int)
    requires 1 <= replicates <= MaxReplicates
    ensures PlateCount(replicates) == if replicates <= 2 then replicates else 2
    ensures replicates == 3 ==> PlateCount(replicates) < replicates
  {
  }

  /** How a run ends: all plates filled, or the replicate check refused the run before any command. */
  datatype RunOutcome = Completed | TooManyReplicates

  /** The two gradients. */
  datatype Inducer = InducerA | InducerB

  /** The source column gradient B of plate `plate` (from 0) is drawn from: 9 + (plate_idx - 1) with plate_idx from 1. */
  function BSourceColumn(plate: nat): int { 9 + plate }

  /** Gradient A, offset `offset`, draws from source column 7-offset; gradient B always from the plate's B column. */
  function GradientSource(inducer: Inducer, plate: nat, offset: int): Well
  {
    match inducer
    case InducerA => Src(7 - offset, 0)
    case InducerB => Src(BSourceColumn(plate), 0)
  }

  /** One gradient transfer: 10 uL into destination column 11-offset, then a blow-out there. */
  function GradientStep(inducer: Inducer, plate: nat, offset: int): seq<Op>
  {
    [ Aspirate(GradientVol, GradientSource(inducer, plate, offset), DefaultRate),
      Dispense(GradientVol, Dst(plate, 11 - offset), DefaultRate), BlowOut(Dst(plate, 11 - offset)) ]
  }

  function GradientSteps(inducer: Inducer, plate: nat, offsets: seq<int>): seq<Op>
    decreases |offsets|
  {
    if offsets == [] then [] else GradientSteps(inducer, plate, offsets[..|offsets| - 1]) + GradientStep(inducer, plate, offsets[|offsets| - 1])
  }

  /** Steps 4 and 5: a gradient over offsets 0 to 7 under one tip. */
  function GradientPlan(inducer: Inducer, plate: nat): seq<Op>
  {
    [PickUpTip] + GradientSteps(inducer, plate, Upto(8)) + [DropTip]
  }

  /** Step 1: 10 uL of diluent from reservoir column 0 into column 0. */
  function PbsBlock(plate: nat): seq<Op>
  {
    [PickUpTip, Aspirate(ReagentAsp, Res(0), DefaultRate), Dispense(ReagentVol, Dst(plate, 0), DefaultRate), DropTip]
  }

  /** Steps 2 and 3: 10 uL of an inducer into column `only` and 10 uL into the positive-control column 3, each drawn separately. */
  function InducerBlock(plate: nat, res: Well, only: int): seq<Op>
  {
    [ PickUpTip,
      Aspirate(ReagentAsp, res, DefaultRate), Dispense(ReagentVol, Dst(plate, only), DefaultRate),
      Aspirate(ReagentAsp, res, DefaultRate), Dispense(ReagentVol, Dst(plate, 3), DefaultRate),
      DropTip ]
  }

  /** Everything the 20 uL pipette does on one plate. */
  function SmallPlan(plate: nat): seq<Op>
  {
    PbsBlock(plate) + InducerBlock(plate, Res(1), 1) + InducerBlock(plate, Res(2), 2)
    + GradientPlan(InducerA, plate) + GradientPlan(InducerB, plate)
  }

  /** `cell_dict`: 90 uL for columns 0-2, 80 uL for column 3, then columns 4 to 11 added by its loop at 80 uL. */
  function CellDict(plate: nat): seq<FinalV3.CellEntry>
  {
    [ FinalV3.CellEntry(Dst(plate, 0), CellHigh), FinalV3.CellEntry(Dst(plate, 1), CellHigh),
      FinalV3.CellEntry(Dst(plate, 2), CellHigh), FinalV3.CellEntry(Dst(plate, 3), CellLow) ]
    + FinalV3.Entries(plate, Upto(12)[4..], CellLow)
  }

  /** Step 6: everything the 300 uL pipette does on one plate, 100 uL drawn for each entry. */
  function CellPlan(plate: nat): seq<Op>
  {
    FinalV3.CellBlocks(CellDict(plate), CellAsp)
  }

  function SmallPlans(plates: seq<nat>): seq<Op>
    decreases |plates|
  {
    if plates == [] then [] else SmallPlans(plates[..|plates| - 1]) + SmallPlan(plates[|plates| - 1])
  }

  function CellPlans(plates: seq<nat>): seq<Op>
    decreases |plates|
  {
    if plates == [] then [] else CellPlans(plates[..|plates| - 1]) + CellPlan(plates[|plates| - 1])
  }

  // ---------------------------------------------------------------------------
  // Volumes.

  /** What the 20 uL pipette puts into row A of a column: 10 uL of reagent
      into columns 0-2, 20 uL into column 3, and 10 uL of each gradient into
      columns 4-11. */
  function SmallVolume(column: int): real
  {
    (if 0 <= column <= 2 then ReagentVol else if column == 3 then 2.0 * ReagentVol else 0.0)
    + (if 4 <= column < 12 then 2.0 * GradientVol else 0.0)
  }

  /** What the cells add: 90 uL into columns 0-2 and 80 uL into 3-11, which
      makes every column up to the 100 uL system. */
  function CellVolume(column: int): (v: real)
    ensures 0 <= column < 12 ==> SmallVolume(column) + v == SystemVol
  {
    if 0 <= column <= 2 then CellHigh else if 3 <= column < 12 then CellLow else 0.0
  }

  lemma {:induction false} GradientStepsDelivered(inducer: Inducer, plate: nat, offsets: seq<int>, w: Well)
    requires Distinct(offsets)
    requires w.labware.DestPlate?
    ensures Delivered(GradientSteps(inducer, plate, offsets), w) ==
            if w.labware == DestPlate(plate) && w.row == 0 && 11 - w.column in offsets then GradientVol else 0.0
  {
    if offsets != [] {
      var init := offsets[..|offsets| - 1];
      var s := GradientStep(inducer, plate, offsets[|offsets| - 1]);
      DistinctInit(offsets);
      GradientStepsDelivered(inducer, plate, init, w);
      DeliveredAppend(GradientSteps(inducer, plate, init), s, w);
      Views3(s[0], s[1], s[2], w);
      InInit(offsets, 11 - w.column);
    }
  }

  /** One gradient transfer aspirates from its gradient source and dispenses
      into row A of destination column 11-offset. */
  lemma GradientStepEnds(inducer: Inducer, plate: nat, offset: int)
    ensures Sources(GradientStep(inducer, plate, offset)) == [GradientSource(inducer, plate, offset)]
    ensures Targets(GradientStep(inducer, plate, offset)) == [Dst(plate, 11 - offset)]
  {
    var s := GradientStep(inducer, plate, offset);
    Views3(s[0], s[1], s[2], Res(0));
  }

  /** A gradient over offsets 0 to n-1 dispenses into row A of destination
      columns 11 down to 12-n, step by step in that order. */
  lemma {:induction false} GradientStepsTargets(inducer: Inducer, plate: nat, n: nat)
    ensures Targets(GradientSteps(inducer, plate, Upto(n))) == DualInducer.DestColumnsDown(plate, 11, n)
  {
    if n > 0 {
      var init := GradientSteps(inducer, plate, Upto(n - 1));
      var s := GradientStep(inducer, plate, n - 1);
      UptoSnoc(n);
      assert GradientSteps(inducer, plate, Upto(n)) == init + s;
      GradientStepsTargets(inducer, plate, n - 1);
      TargetsAppend(init, s);
      GradientStepEnds(inducer, plate, n - 1);
    }
  }

  /** Gradient A over offsets 0 to n-1 draws, step by step, from row A of
      source columns 7 down to 8-n. */
  lemma {:induction false} GradientASources(plate: nat, n: nat)
    ensures Sources(GradientSteps(InducerA, plate, Upto(n))) == ColumnsDown(7, n)
  {
    if n > 0 {
      var init := GradientSteps(InducerA, plate, Upto(n - 1));
      var s := GradientStep(InducerA, plate, n - 1);
      UptoSnoc(n);
      assert GradientSteps(InducerA, plate, Upto(n)) == init + s;
      GradientASources(plate, n - 1);
      SourcesAppend(init, s);
      GradientStepEnds(InducerA, plate, n - 1);
    }
  }

  /** A gradient over offsets 0 to n-1, under one tip, puts 10 uL into row A of columns 12-n to 11. */
  lemma GradientDelivered(inducer: Inducer, plate: nat, n: nat, w: Well)
    requires w.labware.DestPlate?
    ensures Delivered([PickUpTip] + GradientSteps(inducer, plate, Upto(n)) + [DropTip], w) ==
            if w.labware == DestPlate(plate) && w.row == 0 && 12 - n <= w.column < 12 then GradientVol else 0.0
  {
    var steps := GradientSteps(inducer, plate, Upto(n));
    assert Delivered(steps, w) ==
           if w.labware == DestPlate(plate) && w.row == 0 && 12 - n <= w.column < 12 then GradientVol else 0.0 by {
      UptoMembers(n, 11 - w.column);
      GradientStepsDelivered(inducer, plate, Upto(n), w);
    }
    UnderOneTip(steps, w);
  }

  lemma PbsBlockDelivered(plate: nat, w: Well)
    ensures Delivered(PbsBlock(plate), w) == (if w == Dst(plate, 0) then ReagentVol else 0.0) - (if w == Res(0) then ReagentAsp else 0.0)
  {
    var a := PbsBlock(plate);
    Views4(a[0], a[1], a[2], a[3], w);
  }

  lemma InducerBlockDelivered(plate: nat, res: Well, only: int, w: Well)
    ensures Delivered(InducerBlock(plate, res, only), w) ==
            (if w == Dst(plate, only) then ReagentVol else 0.0) + (if w == Dst(plate, 3) then ReagentVol else 0.0)
            - (if w == res then 2.0 * ReagentAsp else 0.0)
  {
    var b := InducerBlock(plate, res, only);
    Views3(b[0], b[1], b[2], w);
    Views3(b[3], b[4], b[5], w);
    DeliveredAppend([b[0], b[1], b[2]], [b[3], b[4], b[5]], w);
    assert [b[0], b[1], b[2]] + [b[3], b[4], b[5]] == b;
  }

  /** The 20 uL pipette's work on one plate. */
  lemma SmallPlanDelivered(plate: nat, w: Well)
    requires w.labware.DestPlate?
    ensures Delivered(SmallPlan(plate), w) == if w.labware == DestPlate(plate) && w.row == 0 then SmallVolume(w.column) else 0.0
  {
    var mine := w.labware == DestPlate(plate) && w.row == 0;
    var pbs, a, b := PbsBlock(plate), InducerBlock(plate, Res(1), 1), InducerBlock(plate, Res(2), 2);
    var ga, gb := GradientPlan(InducerA, plate), GradientPlan(InducerB, plate);
    assert Delivered(pbs + a + b, w) ==
           if mine then (if 0 <= w.column <= 2 then ReagentVol else if w.column == 3 then 2.0 * ReagentVol else 0.0) else 0.0 by {
      PbsBlockDelivered(plate, w);
      InducerBlockDelivered(plate, Res(1), 1, w);
      InducerBlockDelivered(plate, Res(2), 2, w);
      DeliveredAppend(pbs, a, w);
      DeliveredAppend(pbs + a, b, w);
    }
    assert Delivered(ga, w) == if mine && 4 <= w.column < 12 then GradientVol else 0.0 by {
      GradientDelivered(InducerA, plate, 8, w);
    }
    assert Delivered(gb, w) == if mine && 4 <= w.column < 12 then GradientVol else 0.0 by {
      GradientDelivered(InducerB, plate, 8, w);
    }
    DeliveredAppend(pbs + a + b, ga, w);
    DeliveredAppend(pbs + a + b + ga, gb, w);
  }

  /** `cell_dict` splits into the 90 uL part, the positive control and the 80 uL part. */
  lemma CellDictEntries(plate: nat)
    ensures CellDict(plate) ==
            FinalV3.Entries(plate, Upto(3), CellHigh) + [FinalV3.CellEntry(Dst(plate, 3), CellLow)] + FinalV3.Entries(plate, Upto(12)[4..], CellLow)
  {
    assert FinalV3.Entries(plate, Upto(3), CellHigh) ==
           [FinalV3.CellEntry(Dst(plate, 0), CellHigh), FinalV3.CellEntry(Dst(plate, 1), CellHigh), FinalV3.CellEntry(Dst(plate, 2), CellHigh)] by {
      UptoShape(3);
      FinalV3.EntriesAt(plate, Upto(3), CellHigh);
    }
  }

  /** `cell_dict` holds the twelve row-A wells of the plate, in column order, once each. */
  lemma CellDictWells(plate: nat)
    ensures |CellDict(plate)| == 12
    ensures forall j :: 0 <= j < 12 ==> CellDict(plate)[j].well == Dst(plate, j)
  {
    var low := FinalV3.Entries(plate, Upto(12)[4..], CellLow);
    FinalV3.EntriesAt(plate, Upto(12)[4..], CellLow);
    UptoShape(12);
    assert forall j :: 4 <= j < 12 ==> low[j - 4].well == Dst(plate, j);
  }

  /** The 300 uL pipette's work on one plate. */
  lemma CellPlanDelivered(plate: nat, w: Well)
    requires w.labware.DestPlate?
    ensures Delivered(CellPlan(plate), w) == if w.labware == DestPlate(plate) && w.row == 0 then CellVolume(w.column) else 0.0
  {
    var high := FinalV3.Entries(plate, Upto(3), CellHigh);
    var positive := [FinalV3.CellEntry(Dst(plate, 3), CellLow)];
    var low := FinalV3.Entries(plate, Upto(12)[4..], CellLow);
    var mine := w.labware == DestPlate(plate) && w.row == 0;
    CellDictEntries(plate);
    FinalV3.CellBlocksDelivered(CellDict(plate), CellAsp, w);
    assert FinalV3.EntryVolume(high, w) == if mine && 0 <= w.column <= 2 then CellHigh else 0.0 by {
      UptoMembers(3, w.column);
      FinalV3.EntriesVolume(plate, Upto(3), CellHigh, w);
    }
    assert FinalV3.EntryVolume(positive, w) == if w == Dst(plate, 3) then CellLow else 0.0 by {
      assert positive[..0] == [];
    }
    assert FinalV3.EntryVolume(low, w) == if mine && 4 <= w.column < 12 then CellLow else 0.0 by {
      UptoSuffix(12, 4, w.column);
      FinalV3.EntriesVolume(plate, Upto(12)[4..], CellLow, w);
    }
    FinalV3.EntryVolumeAppend(high, positive, w);
    FinalV3.EntryVolumeAppend(high + positive, low, w);
  }

  lemma {:induction false} SmallPlansDelivered(plates: seq<nat>, w: Well)
    requires Distinct(plates)
    requires w.labware.DestPlate?
    ensures Delivered(SmallPlans(plates), w) == if w.labware.index in plates && w.row == 0 then SmallVolume(w.column) else 0.0
  {
    if plates != [] {
      var init := plates[..|plates| - 1];
      DistinctInit(plates);
      SmallPlansDelivered(init, w);
      DeliveredAppend(SmallPlans(init), SmallPlan(plates[|plates| - 1]), w);
      SmallPlanDelivered(plates[|plates| - 1], w);
      InInit(plates, w.labware.index);
    }
  }

  lemma {:induction false} CellPlansDelivered(plates: seq<nat>, w: Well)
    requires Distinct(plates)
    requires w.labware.DestPlate?
    ensures Delivered(CellPlans(plates), w) == if w.labware.index in plates && w.row == 0 then CellVolume(w.column) else 0.0
  {
    if plates != [] {
      var init := plates[..|plates| - 1];
      DistinctInit(plates);
      CellPlansDelivered(init, w);
      DeliveredAppend(CellPlans(init), CellPlan(plates[|plates| - 1]), w);
      CellPlanDelivered(plates[|plates| - 1], w);
      InInit(plates, w.labware.index);
    }
  }

  /** The "100 ul system": after a completed run, row A of every column of
      every filled plate holds exactly 100 uL, as the two pipettes deliver it
      together; no other destination well receives anything. */
  lemma SystemVolume(replicates: int, w: Well)
    requires w.labware.DestPlate?
    ensures Delivered(SmallPlans(Upto(PlateCount(replicates))), w) + Delivered(CellPlans(Upto(PlateCount(replicates))), w) ==
            if w.labware.index < PlateCount(replicates) && w.row == 0 && 0 <= w.column < 12 then SystemVol else 0.0
  {
    var plates := Upto(PlateCount(replicates));
    UptoMembers(PlateCount(replicates), w.labware.index);
    SmallPlansDelivered(plates, w);
    CellPlansDelivered(plates, w);
  }

  /** The B gradient of plate i is drawn from source column 9 + i, so the two filled plates use columns 9 and 10. */
  lemma BSourcesOfFilledPlates(replicates: int, plate: nat)
    requires plate < PlateCount(replicates)
    ensures 9 <= BSourceColumn(plate) <= 10
    ensures forall step :: step in GradientSteps(InducerB, plate, Upto(8)) && step.Aspirate? ==> step.at == Src(9 + plate, 0)
  {
    BStepsSource(plate, Upto(8));
  }

  lemma {:induction false} BStepsSource(plate: nat, offsets: seq<int>)
    ensures forall step :: step in GradientSteps(InducerB, plate, offsets) && step.Aspirate? ==> step.at == Src(9 + plate, 0)
  {
    if offsets != [] {
      BStepsSource(plate, offsets[..|offsets| - 1]);
    }
  }

  // ---------------------------------------------------------------------------
  // The two pipettes.

  /** Step 1 on one plate. */
  method PbsBlockOn(p: Pipette, plate: nat)
    requires p.Valid() && !p.hasTip && p.capacity >= ReagentAsp
    modifies p
    ensures p.Valid() && !p.hasTip
    ensures p.trace == old(p.trace) + PbsBlock(plate)
  {
    p.PickUpTip();
    p.Aspirate(ReagentAsp, Res(0), DefaultRate);
    p.Dispense(ReagentVol, Dst(plate, 0), DefaultRate);
    p.DropTip();
  }

  /** Steps 2 and 3 on one plate: the tip keeps what it over-draws, 2 uL per draw. */
  method InducerBlockOn(p: Pipette, plate: nat, res: Well, only: int)
    requires p.Valid() && !p.hasTip && p.capacity >= 2.0 * ReagentAsp - ReagentVol
    modifies p
    ensures p.Valid() && !p.hasTip
    ensures p.trace == old(p.trace) + InducerBlock(plate, res, only)
  {
    p.PickUpTip();
    p.Aspirate(ReagentAsp, res, DefaultRate);
    p.Dispense(ReagentVol, Dst(plate, only), DefaultRate);
    p.Aspirate(ReagentAsp, res, DefaultRate);
    p.Dispense(ReagentVol, Dst(plate, 3), DefaultRate);
    p.DropTip();
  }

  /** One gradient transfer. */
  method GradientStepOn(p: Pipette, inducer: Inducer, plate: nat, offset: int)
    requires p.Valid() && p.hasTip && p.held == 0.0 && p.capacity >= GradientVol
    modifies p
    ensures p.Valid() && p.hasTip && p.held == 0.0
    ensures p.trace == old(p.trace) + GradientStep(inducer, plate, offset)
  {
    var destColIdx := 11 - offset;
    p.Aspirate(GradientVol, GradientSource(inducer, plate, offset), DefaultRate);
    p.Dispense(GradientVol, Dst(plate, destColIdx), DefaultRate);
    p.BlowOut(Dst(plate, destColIdx));
  }

  /** Steps 4 and 5 on one plate: `for offset in range(8)` under one tip. */
  method GradientOn(p: Pipette, inducer: Inducer, plate: nat)
    requires p.Valid() && !p.hasTip && p.capacity >= GradientVol
    modifies p
    ensures p.Valid() && !p.hasTip
    ensures p.trace == old(p.trace) + GradientPlan(inducer, plate)
  {
    p.PickUpTip();
    GradientLoop(p, inducer, plate, 8);
    p.DropTip();
    AppendAssoc(old(p.trace), [PickUpTip], GradientSteps(inducer, plate, Upto(8)));
    AppendAssoc(old(p.trace), [PickUpTip] + GradientSteps(inducer, plate, Upto(8)), [DropTip]);
  }

  /** `for offset in range(n)`, under the tip the pipette holds. */
  method GradientLoop(p: Pipette, inducer: Inducer, plate: nat, n: nat)
    requires p.Valid() && p.hasTip && p.held == 0.0 && p.capacity >= GradientVol
    modifies p
    ensures p.Valid() && p.hasTip && p.held == 0.0
    ensures p.trace == old(p.trace) + GradientSteps(inducer, plate, Upto(n))
  {
    for offset := 0 to n
      invariant p.Valid() && p.hasTip && p.held == 0.0
      invariant p.trace == old(p.trace) + GradientSteps(inducer, plate, Upto(offset))
    {
      GradientStepOn(p, inducer, plate, offset);
      assert Upto(offset + 1)[..offset] == Upto(offset);
      AppendAssoc(old(p.trace), GradientSteps(inducer, plate, Upto(offset)), GradientStep(inducer, plate, offset));
    }
  }

  /** Steps 1-5 on one plate, with the 20 uL pipette. */
  method SmallPlanOn(p: Pipette, plate: nat)
    requires p.Valid() && !p.hasTip && p.capacity >= 2.0 * ReagentAsp - ReagentVol
    modifies p
    ensures p.Valid() && !p.hasTip
    ensures p.trace == old(p.trace) + SmallPlan(plate)
  {
    PbsBlockOn(p, plate);
    InducerBlockOn(p, plate, Res(1), 1);
    InducerBlockOn(p, plate, Res(2), 2);
    GradientOn(p, InducerA, plate);
    GradientOn(p, InducerB, plate);
    ghost var pbs, a, b := PbsBlock(plate), InducerBlock(plate, Res(1), 1), InducerBlock(plate, Res(2), 2);
    ghost var ga, gb := GradientPlan(InducerA, plate), GradientPlan(InducerB, plate);
    AppendAssoc(old(p.trace), pbs, a);
    AppendAssoc(old(p.trace), pbs + a, b);
    AppendAssoc(old(p.trace), pbs + a + b, ga);
    AppendAssoc(old(p.trace), pbs + a + b + ga, gb);
  }

  /** `cell_dict`: four entries written out, then columns 4 to 11 added by its
      loop. Every key added is new, so each assignment appends. */
  method BuildCellDict(plate: nat) returns (cellDict: seq<FinalV3.CellEntry>)
    ensures cellDict == CellDict(plate)
  {
    UptoShape(12);
    var head := [ FinalV3.CellEntry(Dst(plate, 0), CellHigh), FinalV3.CellEntry(Dst(plate, 1), CellHigh),
                  FinalV3.CellEntry(Dst(plate, 2), CellHigh), FinalV3.CellEntry(Dst(plate, 3), CellLow) ];
    cellDict := head;
    for i := 4 to 12
      invariant cellDict == head + FinalV3.Entries(plate, Upto(12)[4..i], CellLow)
    {
      SliceInit(Upto(12), 4, i + 1);
      cellDict := cellDict + [FinalV3.CellEntry(Dst(plate, i), CellLow)];
    }
    assert Upto(12)[4..12] == Upto(12)[4..];
  }

  /** Step 6 on one plate, with the 300 uL pipette. */
  method CellPlanOn(p: Pipette, plate: nat)
    requires p.Valid() && !p.hasTip && p.capacity >= CellAsp
    modifies p
    ensures p.Valid() && !p.hasTip
    ensures p.trace == old(p.trace) + CellPlan(plate)
  {
    var cellDict := BuildCellDict(plate);
    CellDictVolumes(plate);
    FinalV3.CellsOn(p, cellDict, CellAsp);
  }

  /** Every entry of `cell_dict` is 90 or 80 uL, so the tip keeps at most 20 uL before the 50 uL mix. */
  lemma CellDictVolumes(plate: nat)
    ensures forall j :: 0 <= j < |CellDict(plate)| ==> CellLow <= CellDict(plate)[j].volume <= CellHigh
  {
    FinalV3.EntriesAt(plate, Upto(12)[4..], CellLow);
  }

  /** `run`: the replicate check first, then the plate loop over the loaded plates. */
  method Run(small: Pipette, large: Pipette, replicates: int) returns (outcome: RunOutcome)
    requires small != large
    requires small.Valid() && !small.hasTip && small.capacity >= 2.0 * ReagentAsp - ReagentVol
    requires large.Valid() && !large.hasTip && large.capacity >= CellAsp
    modifies small, large
    ensures outcome == if replicates > MaxReplicates then TooManyReplicates else Completed
    ensures outcome == TooManyReplicates ==> small.trace == old(small.trace) && large.trace == old(large.trace)
    ensures outcome == Completed ==>
              && small.trace == old(small.trace) + SmallPlans(Upto(PlateCount(replicates)))
              && large.trace == old(large.trace) + CellPlans(Upto(PlateCount(replicates)))
    ensures small.Valid() && !small.hasTip && large.Valid() && !large.hasTip
    ensures Feasible(small.trace, small.capacity) && Feasible(large.trace, large.capacity)
  {
    if replicates > MaxReplicates {
      return TooManyReplicates;
    }
    var destList := PlateCount(replicates);
    for plateIdx := 0 to destList
      invariant small.Valid() && !small.hasTip && large.Valid() && !large.hasTip
      invariant small.trace == old(small.trace) + SmallPlans(Upto(plateIdx))
      invariant large.trace == old(large.trace) + CellPlans(Upto(plateIdx))
    {
      SmallPlanOn(small, plateIdx);
      CellPlanOn(large, plateIdx);
      assert Upto(plateIdx + 1)[..plateIdx] == Upto(plateIdx);
      AppendAssoc(old(small.trace), SmallPlans(Upto(plateIdx)), SmallPlan(plateIdx));
      AppendAssoc(old(large.trace), CellPlans(Upto(plateIdx)), CellPlan(plateIdx));
    }
    outcome := Completed;
  }
}
