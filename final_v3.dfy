/**
 * The final dual-inducer script: diluent onto the source plate with
 * reservoir rotation, the inducer-A chain along row A (slowed aspiration of
 * the inducer, slowed cascade dispenses), the inducer-B chains down source
 * column 11 onwards, then one destination plate: reagents by explicit tip
 * blocks, gradient A, a two-column gradient B, and the cells.
 *
 * The replicate count is a parameter. As written, the B loop indexes source
 * column 11 + r for replicate r, so a second replicate reaches column 12,
 * which does not exist: the run stops there with the single-channel pipette
 * holding a tip and 300 uL.
 */
module FinalV3 {
  import opened Pipetting
  import ResourceTracker
  import DualInducer

  const AspVol: real := 300.0
  const DispVol: real := 300.0
  const MixVol: real := 300.0
  /** The slowed aspiration of each inducer from the reservoir. */
  const InducerAspRate: real := 0.6
  /** The slowed dispense of each inducer-A cascade step. */
  const CascadeDispRate: real := 0.4
  /** The source plate has twelve columns, indexed 0 to 11. */
  const SourceColumns: int := 12
  /** The reagent blocks aspirate 70 uL and dispense 30 uL per target. */
  const ReagentAsp: real := 70.0
  const ReagentVol: real := 30.0
  const GradientVol: real := 30.0
  const CellHigh: real := 70.0
  const CellLow: real := 40.0
  const CellMixVol: real := 50.0

  /** Row A of column `column` of destination plate `plate`. */
  function Dst(plate: nat, column: int): Well { Well(DestPlate(plate), column, 0) }

  // ---------------------------------------------------------------------------
  // `move_liquid`.

  /** Aspirate and dispense at the default rate, a mix only when `mixOpt`, then a blow-out at the destination. */
  function MoveLiquid(aspVol: real, dispVol: real, from: Well, to: Well, mixOpt: bool, mixVol: real, mixReps: int): seq<Op>
  {
    if mixOpt then
      [Aspirate(aspVol, from, DefaultRate), Dispense(dispVol, to, DefaultRate), Mix(mixReps, mixVol, to), BlowOut(to)]
    else
      [Aspirate(aspVol, from, DefaultRate), Dispense(dispVol, to, DefaultRate), BlowOut(to)]
  }

  /** The mix is there exactly when `mixOpt` is true, as the third command; the blow-out is last. */
  lemma MoveLiquidShape(aspVol: real, dispVol: real, from: Well, to: Well, mixOpt: bool, mixVol: real, mixReps: int)
    ensures var ops := MoveLiquid(aspVol, dispVol, from, to, mixOpt, mixVol, mixReps);
            && |ops| == (if mixOpt then 4 else 3)
            && ops[0] == Aspirate(aspVol, from, DefaultRate) && ops[1] == Dispense(dispVol, to, DefaultRate)
            && ops[|ops| - 1] == BlowOut(to)
            && (forall i :: 0 <= i < |ops| ==> (ops[i].Mix? <==> mixOpt && i == 2))
  {
  }

  /** Without a mix, this helper issues the same commands as the dual-inducer
      script's `move_liquid` at the default rate without a mix. */
  lemma MoveLiquidAgrees(aspVol: real, dispVol: real, from: Well, to: Well, mixVol: real, mixReps: int)
    ensures MoveLiquid(aspVol, dispVol, from, to, false, mixVol, mixReps) ==
            DualInducer.MoveLiquid(aspVol, dispVol, from, to, DefaultRate, mixVol, 0)
  {
  }

  // ---------------------------------------------------------------------------
  // Source plate, step 1: the diluent.

  /** One pass of the diluent loop, as draw `k`: the counter is checked
      before the column is looked up. */
  method PbsDraw(p: Pipette, k: nat, column: int, currentWellColumn: int, pbsWellVolume: int)
    returns (nextWellColumn: int, nextWellVolume: int)
    requires k < 20 && currentWellColumn >= 4
    requires ResourceTracker.Tracker(currentWellColumn - 4, pbsWellVolume) == ResourceTracker.AfterDraws(k)
    requires p.Valid() && p.hasTip && p.held == 0.0 && p.capacity >= AspVol
    modifies p
    ensures nextWellColumn >= 4
    ensures ResourceTracker.Tracker(nextWellColumn - 4, nextWellVolume) == ResourceTracker.AfterDraws(k + 1)
    ensures p.Valid() && p.hasTip && p.held == 0.0
    ensures p.trace == old(p.trace) + DualInducer.PbsTransfer(k, column)
  {
    var dest := Src(column, 0);
    nextWellColumn, nextWellVolume := currentWellColumn, pbsWellVolume;
    if nextWellVolume > ResourceTracker.Limit {
      nextWellVolume := 0;
      nextWellColumn := nextWellColumn + 1;
    }
    ResourceTracker.DrawIndex(k);
    assert DualInducer.PbsSource(k) == Res(4 + k / 5);
    MoveLiquidOn(p, AspVol, DispVol, Res(nextWellColumn), dest, false, MixVol, 3);
    nextWellVolume := nextWellVolume + ResourceTracker.DrawVolume;
    MoveLiquidAgrees(AspVol, DispVol, Res(nextWellColumn), dest, MixVol, 3);
  }

  /** Step 1 issues exactly the commands of the dual-inducer script's
      `distribute_pbs`: ten columns under one tip, five draws per
      reservoir column from column 4 on. */
  method DistributePbs(p: Pipette)
    requires p.Valid() && !p.hasTip && p.capacity >= AspVol
    modifies p
    ensures p.Valid() && !p.hasTip
    ensures p.trace == old(p.trace) + DualInducer.PbsPlan()
  {
    p.PickUpTip();
    PbsLoop(p, DiluentColumns);
    p.DropTip();
  }

  /** The loop of `distribute_pbs` over `targets`, with the well counter and
      the volume counter starting at column 4 and 0. */
  method PbsLoop(p: Pipette, targets: seq<int>)
    requires |targets| <= 20
    requires p.Valid() && p.hasTip && p.held == 0.0 && p.capacity >= AspVol
    modifies p
    ensures p.Valid() && p.hasTip && p.held == 0.0
    ensures p.trace == old(p.trace) + DualInducer.PbsTransfers(targets)
  {
    var pbsWellVolume := 0;
    var currentWellColumn := 4;
    for i := 0 to |targets|
      invariant currentWellColumn >= 4
      invariant p.Valid() && p.hasTip && p.held == 0.0
      invariant ResourceTracker.Tracker(currentWellColumn - 4, pbsWellVolume) == ResourceTracker.AfterDraws(i)
      invariant p.trace == old(p.trace) + DualInducer.PbsTransfers(targets[..i])
    {
      currentWellColumn, pbsWellVolume := PbsDraw(p, i, targets[i], currentWellColumn, pbsWellVolume);
      assert targets[..i + 1][..i] == targets[..i];
      AppendAssoc(old(p.trace), DualInducer.PbsTransfers(targets[..i]), DualInducer.PbsTransfer(i, targets[i]));
    }
    assert targets[..|targets|] == targets;
  }

  // ---------------------------------------------------------------------------
  // Source plate, steps 2 and 3: the inducer chains.

  /** The inducer's arrival at the head of a chain: a slowed aspiration from
      the reservoir, a dispense, a 3 x 300 uL mix and a blow-out. */
  function Intro(res: Well, to: Well): seq<Op>
  {
    [Aspirate(AspVol, res, InducerAspRate), Dispense(DispVol, to, DefaultRate), Mix(3, MixVol, to), BlowOut(to)]
  }

  /** One cascade step: 300 uL from `from` to `to`, dispensed at `dispRate`,
      mixed 3 x 300 uL, and blown out only when `blowOut`. */
  function CascadeStep(from: Well, to: Well, dispRate: real, blowOut: bool): seq<Op>
  {
    if blowOut then
      [Aspirate(AspVol, from, DefaultRate), Dispense(DispVol, to, dispRate), Mix(3, MixVol, to), BlowOut(to)]
    else
      [Aspirate(AspVol, from, DefaultRate), Dispense(DispVol, to, dispRate), Mix(3, MixVol, to)]
  }

  /** The cascade along `path`: one step per adjacent pair, in order. */
  function Cascade(path: seq<Well>, dispRate: real, blowOut: bool): seq<Op>
    decreases |path|
  {
    if |path| < 2 then []
    else Cascade(path[..|path| - 1], dispRate, blowOut) + CascadeStep(path[|path| - 2], path[|path| - 1], dispRate, blowOut)
  }

  /** A whole chain under one tip: the intro into the first well of `path`,
      the cascade, a blow-out at the last well when `finalBlowOut`, and the
      discard of 300 uL from the last well. */
  function Chain(res: Well, path: seq<Well>, dispRate: real, blowOut: bool, finalBlowOut: bool): seq<Op>
    requires |path| > 0
  {
    [PickUpTip]
    + Intro(res, path[0])
    + Cascade(path, dispRate, blowOut)
    + Ending(path[|path| - 1], finalBlowOut)
  }

  /** The end of a chain: a blow-out at the last well when `finalBlowOut`,
      then 300 uL taken from it and discarded with the tip. */
  function Ending(at: Well, finalBlowOut: bool): seq<Op>
  {
    if finalBlowOut then [BlowOut(at), Aspirate(AspVol, at, DefaultRate), DropTip]
    else [Aspirate(AspVol, at, DefaultRate), DropTip]
  }

  lemma IntroViews(res: Well, to: Well, w: Well)
    ensures Sources(Intro(res, to)) == [res]
    ensures Targets(Intro(res, to)) == [to]
    ensures Delivered(Intro(res, to), w) == (if w == to then DispVol else 0.0) - (if w == res then AspVol else 0.0)
  {
    var i := Intro(res, to);
    Views4(i[0], i[1], i[2], i[3], w);
  }

  lemma EndingViews(at: Well, finalBlowOut: bool, w: Well)
    ensures Sources(Ending(at, finalBlowOut)) == [at]
    ensures Targets(Ending(at, finalBlowOut)) == []
    ensures Delivered(Ending(at, finalBlowOut), w) == if w == at then -AspVol else 0.0
  {
    if finalBlowOut {
      var e := Ending(at, true);
      Views3(e[0], e[1], e[2], w);
    } else {
      DualInducer.DiscardViews(at, w);
    }
  }

  /** Step 2: inducer A from reservoir column 1 into column `top`, the
      cascade down to column 0 with slowed dispenses and a blow-out per step,
      then the discard. */
  function AChain(top: nat): seq<Op>
  {
    Chain(Res(1), ColumnsDown(top, top + 1), CascadeDispRate, true, false)
  }

  function APlan(): seq<Op>
  {
    AChain(7)
  }

  /** Step 3 on one column: inducer B from reservoir column 2 into row H, the
      cascade up to row A without blow-outs, one blow-out, then the discard. */
  function BChain(column: int): seq<Op>
  {
    Chain(Res(2), RowsDown(column, 7, 8), DefaultRate, false, true)
  }

  lemma CascadeStepViews(from: Well, to: Well, dispRate: real, blowOut: bool, w: Well)
    ensures Sources(CascadeStep(from, to, dispRate, blowOut)) == [from]
    ensures Targets(CascadeStep(from, to, dispRate, blowOut)) == [to]
    ensures Delivered(CascadeStep(from, to, dispRate, blowOut), w) ==
            (if w == to then DispVol else 0.0) - (if w == from then AspVol else 0.0)
  {
    var a, d, m := Aspirate(AspVol, from, DefaultRate), Dispense(DispVol, to, dispRate), Mix(3, MixVol, to);
    if blowOut {
      Views4(a, d, m, BlowOut(to), w);
    } else {
      Views3(a, d, m, w);
    }
  }

  /** A cascade over n wells aspirates from every well but the last, in order. */
  lemma {:induction false} CascadeSources(path: seq<Well>, dispRate: real, blowOut: bool)
    requires |path| > 0
    ensures Sources(Cascade(path, dispRate, blowOut)) == path[..|path| - 1]
  {
    if |path| >= 2 {
      var init := path[..|path| - 1];
      assert Sources(Cascade(path, dispRate, blowOut)) == init[..|init| - 1] + [path[|path| - 2]] by {
        CascadeSources(init, dispRate, blowOut);
        SourcesAppend(Cascade(init, dispRate, blowOut), CascadeStep(path[|path| - 2], path[|path| - 1], dispRate, blowOut));
        CascadeStepViews(path[|path| - 2], path[|path| - 1], dispRate, blowOut, path[0]);
      }
      assert init[..|init| - 1] + [path[|path| - 2]] == path[..|path| - 1];
    }
  }

  /** A cascade over n wells dispenses into every well but the first, in order. */
  lemma {:induction false} CascadeTargets(path: seq<Well>, dispRate: real, blowOut: bool)
    requires |path| > 0
    ensures Targets(Cascade(path, dispRate, blowOut)) == path[1..]
  {
    if |path| >= 2 {
      var init := path[..|path| - 1];
      assert Targets(Cascade(path, dispRate, blowOut)) == init[1..] + [path[|path| - 1]] by {
        CascadeTargets(init, dispRate, blowOut);
        TargetsAppend(Cascade(init, dispRate, blowOut), CascadeStep(path[|path| - 2], path[|path| - 1], dispRate, blowOut));
        CascadeStepViews(path[|path| - 2], path[|path| - 1], dispRate, blowOut, path[0]);
      }
      assert init[1..] + [path[|path| - 1]] == path[1..];
    }
  }

  /** The volume only moves along the path: the first well has given 300 uL
      and the last has received 300 uL. */
  lemma {:induction false} CascadeDelivered(path: seq<Well>, dispRate: real, blowOut: bool, w: Well)
    requires |path| > 0
    ensures Delivered(Cascade(path, dispRate, blowOut), w) ==
            (if w == path[|path| - 1] then DispVol else 0.0) - (if w == path[0] then AspVol else 0.0)
  {
    if |path| >= 2 {
      var init := path[..|path| - 1];
      CascadeDelivered(init, dispRate, blowOut, w);
      DeliveredAppend(Cascade(init, dispRate, blowOut), CascadeStep(path[|path| - 2], path[|path| - 1], dispRate, blowOut), w);
      CascadeStepViews(path[|path| - 2], path[|path| - 1], dispRate, blowOut, w);
    }
  }

  /** Every dispense of a cascade runs at its dispense rate, and a cascade
      without per-step blow-outs contains none. */
  lemma {:induction false} CascadeCommands(path: seq<Well>, dispRate: real, blowOut: bool)
    ensures forall op :: op in Cascade(path, dispRate, blowOut) && op.Dispense? ==> op.rate == dispRate
    ensures forall op :: op in Cascade(path, dispRate, blowOut) && op.BlowOut? ==> blowOut
  {
    if |path| >= 2 {
      CascadeCommands(path[..|path| - 1], dispRate, blowOut);
    }
  }

  /** A chain aspirates from the reservoir well and then from every well of
      the path in order, the last time for the discard. */
  lemma ChainSources(res: Well, path: seq<Well>, dispRate: real, blowOut: bool, finalBlowOut: bool)
    requires |path| > 0
    ensures Sources(Chain(res, path, dispRate, blowOut, finalBlowOut)) == [res] + path
  {
    var last := path[|path| - 1];
    assert Sources(Chain(res, path, dispRate, blowOut, finalBlowOut)) == [] + [res] + path[..|path| - 1] + [last] by {
      Append4([PickUpTip], Intro(res, path[0]), Cascade(path, dispRate, blowOut), Ending(last, finalBlowOut), res);
      PickUpViews(res);
      IntroViews(res, path[0], res);
      CascadeSources(path, dispRate, blowOut);
      EndingViews(last, finalBlowOut, res);
    }
    assert [] + [res] == [res];
    PrefixSnoc([res], path);
  }

  /** A chain dispenses into every well of the path in order, once each. */
  lemma ChainTargets(res: Well, path: seq<Well>, dispRate: real, blowOut: bool, finalBlowOut: bool)
    requires |path| > 0
    ensures Targets(Chain(res, path, dispRate, blowOut, finalBlowOut)) == path
  {
    var last := path[|path| - 1];
    assert Targets(Chain(res, path, dispRate, blowOut, finalBlowOut)) == [] + [path[0]] + path[1..] + [] by {
      Append4([PickUpTip], Intro(res, path[0]), Cascade(path, dispRate, blowOut), Ending(last, finalBlowOut), res);
      PickUpViews(res);
      IntroViews(res, path[0], res);
      CascadeTargets(path, dispRate, blowOut);
      EndingViews(last, finalBlowOut, res);
    }
    assert [] + [path[0]] + path[1..] + [] == path;
  }

  /** A chain leaves every well as it was but the reservoir well, which has lost 300 uL. */
  lemma ChainDelivered(res: Well, path: seq<Well>, dispRate: real, blowOut: bool, finalBlowOut: bool, w: Well)
    requires |path| > 0
    ensures Delivered(Chain(res, path, dispRate, blowOut, finalBlowOut), w) == if w == res then -AspVol else 0.0
  {
    var last := path[|path| - 1];
    Append4([PickUpTip], Intro(res, path[0]), Cascade(path, dispRate, blowOut), Ending(last, finalBlowOut), w);
    PickUpViews(w);
    IntroViews(res, path[0], w);
    CascadeDelivered(path, dispRate, blowOut, w);
    EndingViews(last, finalBlowOut, w);
  }

  /** Step 2 aspirates from reservoir column 1 and then from columns 7 down to
      0 (the last time for the discard), dispenses into columns 7 down to 0,
      and only reservoir column 1 ends with less (300 uL). */
  lemma APlanViews(w: Well)
    ensures Sources(APlan()) == [Res(1)] + ColumnsDown(7, 8)
    ensures Targets(APlan()) == ColumnsDown(7, 8)
    ensures Delivered(APlan(), w) == if w == Res(1) then -AspVol else 0.0
  {
    ColumnsDownAt(7, 8);
    ChainSources(Res(1), ColumnsDown(7, 8), CascadeDispRate, true, false);
    ChainTargets(Res(1), ColumnsDown(7, 8), CascadeDispRate, true, false);
    ChainDelivered(Res(1), ColumnsDown(7, 8), CascadeDispRate, true, false, w);
  }

  /** Step 3 on one column dispenses into its rows H to A, in that order, and
      takes 300 uL from reservoir column 2 and nothing from anywhere else. */
  lemma BChainViews(column: int, w: Well)
    ensures Targets(BChain(column)) == RowsDown(column, 7, 8)
    ensures Delivered(BChain(column), w) == if w == Res(2) then -AspVol else 0.0
  {
    RowsDownAt(column, 7, 8);
    ChainTargets(Res(2), RowsDown(column, 7, 8), DefaultRate, false, true);
    ChainDelivered(Res(2), RowsDown(column, 7, 8), DefaultRate, false, true, w);
  }

  /** What the single-channel pipette does for `replicates`: nothing for none;
      the chain on column 11 for the first replicate; for a second, a fresh
      tip and the inducer aspiration, after which column 12 is looked up and
      the run stops. */
  function SinglePlan(replicates: int): seq<Op>
  {
    if replicates <= 0 then []
    else if replicates == 1 then BChain(11)
    else BChain(11) + [PickUpTip, Aspirate(AspVol, Res(2), InducerAspRate)]
  }

  /** How the run ends: all commands issued, or the index error at source column 12. */
  datatype RunOutcome = Completed | ColumnIndexError(column: int)

  // ---------------------------------------------------------------------------
  // Destination plate: reagents, gradients, cells.

  /** The diluent, drawn from reservoir column 5, into column 0 of the first plate. */
  function PbsBlock(): seq<Op>
  {
    [PickUpTip, Aspirate(ReagentAsp, Res(5), DefaultRate), Dispense(ReagentVol, Dst(0, 0), DefaultRate), DropTip]
  }

  /** An inducer from `res` into column `only` and the positive-control column 3 of the first plate. */
  function InducerBlock(res: Well, only: int): seq<Op>
  {
    [ PickUpTip, Aspirate(ReagentAsp, res, DefaultRate),
      Dispense(ReagentVol, Dst(0, only), DefaultRate), Dispense(ReagentVol, Dst(0, 3), DefaultRate), DropTip ]
  }

  /** Steps 1-3 of the destination setup, on the first plate whatever the replicate count. */
  function ReagentBlocks(): seq<Op>
  {
    PbsBlock() + InducerBlock(Res(1), 1) + InducerBlock(Res(2), 2)
  }

  /** Gradient A, offset `offset`: source column 7-offset into destination column 11-offset. */
  function GradientAStep(plate: nat, offset: int): seq<Op>
  {
    [ Aspirate(GradientVol, Src(7 - offset, 0), DefaultRate),
      Dispense(GradientVol, Dst(plate, 11 - offset), DefaultRate), BlowOut(Dst(plate, 11 - offset)) ]
  }

  function GradientASteps(plate: nat, offsets: seq<int>): seq<Op>
    decreases |offsets|
  {
    if offsets == [] then [] else GradientASteps(plate, offsets[..|offsets| - 1]) + GradientAStep(plate, offsets[|offsets| - 1])
  }

  /** The source column gradient B of plate `plate` (from 0) is drawn from: 11 + (plate_idx - 1) with plate_idx from 1. */
  function BSourceColumn(plate: nat): int { 11 + plate }

  /** Gradient B, offset `offset`: into destination column 5-offset. */
  function GradientBStep(plate: nat, offset: int): seq<Op>
  {
    [ Aspirate(GradientVol, Src(BSourceColumn(plate), 0), DefaultRate),
      Dispense(GradientVol, Dst(plate, 5 - offset), DefaultRate), BlowOut(Dst(plate, 5 - offset)) ]
  }

  function GradientBSteps(plate: nat, offsets: seq<int>): seq<Op>
    decreases |offsets|
  {
    if offsets == [] then [] else GradientBSteps(plate, offsets[..|offsets| - 1]) + GradientBStep(plate, offsets[|offsets| - 1])
  }

  /** An entry of a cell dictionary: a destination well and the volume dispensed into it. */
  datatype CellEntry = CellEntry(well: Well, volume: real)

  /** `cell_dict_1`: 70 uL into columns 0, 1 and 2, in that order. */
  function CellDict1(plate: nat): seq<CellEntry>
  {
    [CellEntry(Dst(plate, 0), CellHigh), CellEntry(Dst(plate, 1), CellHigh), CellEntry(Dst(plate, 2), CellHigh)]
  }

  /** Entries of `volume` for row A of each of `columns`, in order. */
  function Entries(plate: nat, columns: seq<int>, volume: real): seq<CellEntry>
    decreases |columns|
  {
    if columns == [] then [] else Entries(plate, columns[..|columns| - 1], volume) + [CellEntry(Dst(plate, columns[|columns| - 1]), volume)]
  }

  /** `cell_dict_2`: column 3, then columns 4 to 11 added by its loop, 40 uL each. */
  function CellDict2(plate: nat): seq<CellEntry>
  {
    [CellEntry(Dst(plate, 3), CellLow)] + Entries(plate, Upto(12)[4..], CellLow)
  }

  lemma {:induction false} EntriesAt(plate: nat, columns: seq<int>, volume: real)
    ensures |Entries(plate, columns, volume)| == |columns|
    ensures forall j :: 0 <= j < |columns| ==> Entries(plate, columns, volume)[j] == CellEntry(Dst(plate, columns[j]), volume)
  {
    if columns != [] {
      EntriesAt(plate, columns[..|columns| - 1], volume);
    }
  }

  /** `cell_dict_2` holds the nine columns 3 to 11, in order, with 40 uL each. */
  lemma CellDict2Shape(plate: nat)
    ensures |CellDict2(plate)| == 9
    ensures forall j :: 0 <= j < 9 ==> CellDict2(plate)[j] == CellEntry(Dst(plate, 3 + j), CellLow)
  {
    UptoShape(12);
    EntriesAt(plate, Upto(12)[4..], CellLow);
  }

  /** One cell transfer under a fresh tip: `aspVol` from reservoir column 3,
      the entry's volume into its well, a 3 x 50 uL mix and a blow-out. */
  function CellBlock(e: CellEntry, aspVol: real): seq<Op>
  {
    [ PickUpTip, Aspirate(aspVol, Res(3), DefaultRate), Dispense(e.volume, e.well, DefaultRate),
      Mix(3, CellMixVol, e.well), BlowOut(e.well), DropTip ]
  }

  /** The cell transfers for the entries of one dictionary, in insertion order. */
  function CellBlocks(entries: seq<CellEntry>, aspVol: real): seq<Op>
    decreases |entries|
  {
    if entries == [] then [] else CellBlocks(entries[..|entries| - 1], aspVol) + CellBlock(entries[|entries| - 1], aspVol)
  }

  /** Steps 4-6 on one plate: gradient A and gradient B, each under one tip, then the cells. */
  function PlateTransfers(plate: nat): seq<Op>
  {
    GradientAPlan(plate) + GradientBPlan(plate) + CellPlan(plate)
  }

  /** Step 4: gradient A over offsets 0 to 7 under one tip. */
  function GradientAPlan(plate: nat): seq<Op>
  {
    [PickUpTip] + GradientASteps(plate, Upto(8)) + [DropTip]
  }

  /** Step 5: gradient B over offsets 0 and 1 under one tip. */
  function GradientBPlan(plate: nat): seq<Op>
  {
    [PickUpTip] + GradientBSteps(plate, Upto(2)) + [DropTip]
  }

  /** Step 6: the cell transfers of both dictionaries, 70 uL aspirated for the first and 40 uL for the second. */
  function CellPlan(plate: nat): seq<Op>
  {
    CellBlocks(CellDict1(plate), CellHigh) + CellBlocks(CellDict2(plate), CellLow)
  }

  function TransfersFor(plates: seq<nat>): seq<Op>
    decreases |plates|
  {
    if plates == [] then [] else TransfersFor(plates[..|plates| - 1]) + PlateTransfers(plates[|plates| - 1])
  }

  /** `[dest_1][:replicates]`: one plate at most. */
  function PlateCount(replicates: int): nat
  {
    if replicates >= 1 then 1 else 0
  }

  /** The multi-channel pipette's commands before the destination setup. */
  function SourcePlan(): seq<Op>
  {
    DualInducer.PbsPlan() + APlan()
  }

  /** The multi-channel pipette's commands in a run that completes. */
  function MultiPlan(replicates: int): seq<Op>
  {
    SourcePlan() + ReagentBlocks() + TransfersFor(Upto(PlateCount(replicates)))
  }

  // ---------------------------------------------------------------------------
  // Destination volumes.

  /** What the reagent blocks put into row A of a column of the first plate:
      30 uL into columns 0-2 and 60 uL into column 3. */
  function ReagentVolume(column: int): real
  {
    if 0 <= column <= 2 then ReagentVol else if column == 3 then 2.0 * ReagentVol else 0.0
  }

  /** What steps 4-6 put into row A of a column: gradient A into 4-11,
      gradient B into 4 and 5, and the cells into every column. */
  function PlateVolume(column: int): real
  {
    (if 4 <= column < 12 then GradientVol else 0.0)
    + (if 4 <= column <= 5 then GradientVol else 0.0)
    + (if 0 <= column <= 2 then CellHigh else if 3 <= column < 12 then CellLow else 0.0)
  }

  lemma PbsBlockDelivered(w: Well)
    ensures Delivered(PbsBlock(), w) == (if w == Dst(0, 0) then ReagentVol else 0.0) - (if w == Res(5) then ReagentAsp else 0.0)
  {
    var a := PbsBlock();
    Views4(a[0], a[1], a[2], a[3], w);
  }

  lemma InducerBlockDelivered(res: Well, only: int, w: Well)
    ensures Delivered(InducerBlock(res, only), w) ==
            (if w == Dst(0, only) then ReagentVol else 0.0) + (if w == Dst(0, 3) then ReagentVol else 0.0)
            - (if w == res then ReagentAsp else 0.0)
  {
    var b := InducerBlock(res, only);
    Views4(b[0], b[1], b[2], b[3], w);
    ViewsSnoc([b[0], b[1], b[2], b[3]], b[4], w);
    assert [b[0], b[1], b[2], b[3]] + [b[4]] == b;
  }

  /** The reagent blocks put 30 uL into row A of columns 0-2 of the first
      plate and 60 uL into column 3, and nothing into any other destination well. */
  lemma ReagentBlocksDelivered(w: Well)
    requires w.labware.DestPlate?
    ensures Delivered(ReagentBlocks(), w) == if w.labware == DestPlate(0) && w.row == 0 then ReagentVolume(w.column) else 0.0
  {
    PbsBlockDelivered(w);
    InducerBlockDelivered(Res(1), 1, w);
    InducerBlockDelivered(Res(2), 2, w);
    DeliveredAppend(PbsBlock(), InducerBlock(Res(1), 1), w);
    DeliveredAppend(PbsBlock() + InducerBlock(Res(1), 1), InducerBlock(Res(2), 2), w);
  }

  lemma {:induction false} GradientAStepsDelivered(plate: nat, offsets: seq<int>, w: Well)
    requires Distinct(offsets)
    requires w.labware.DestPlate?
    ensures Delivered(GradientASteps(plate, offsets), w) ==
            if w.labware == DestPlate(plate) && w.row == 0 && 11 - w.column in offsets then GradientVol else 0.0
  {
    if offsets != [] {
      var init := offsets[..|offsets| - 1];
      var o := offsets[|offsets| - 1];
      var s := GradientAStep(plate, o);
      DistinctInit(offsets);
      GradientAStepsDelivered(plate, init, w);
      DeliveredAppend(GradientASteps(plate, init), s, w);
      Views3(s[0], s[1], s[2], w);
      InInit(offsets, 11 - w.column);
    }
  }

  /** One gradient-A transfer aspirates from row A of source column 7-offset
      and dispenses into row A of destination column 11-offset. */
  lemma GradientAStepEnds(plate: nat, offset: int)
    ensures Sources(GradientAStep(plate, offset)) == [Src(7 - offset, 0)]
    ensures Targets(GradientAStep(plate, offset)) == [Dst(plate, 11 - offset)]
  {
    var s := GradientAStep(plate, offset);
    Views3(s[0], s[1], s[2], Res(0));
  }

  /** Gradient A over offsets 0 to n-1 aspirates from row A of source columns 7
      down to 8-n and dispenses into row A of destination columns 11 down to 12-n,
      step by step in that order. */
  lemma {:induction false} GradientAStepsEnds(plate: nat, n: nat)
    ensures Sources(GradientASteps(plate, Upto(n))) == ColumnsDown(7, n)
    ensures Targets(GradientASteps(plate, Upto(n))) == DualInducer.DestColumnsDown(plate, 11, n)
  {
    if n > 0 {
      var init := GradientASteps(plate, Upto(n - 1));
      var s := GradientAStep(plate, n - 1);
      UptoSnoc(n);
      assert GradientASteps(plate, Upto(n)) == init + s;
      GradientAStepsEnds(plate, n - 1);
      SourcesAppend(init, s);
      TargetsAppend(init, s);
      GradientAStepEnds(plate, n - 1);
    }
  }

  lemma {:induction false} GradientBStepsDelivered(plate: nat, offsets: seq<int>, w: Well)
    requires Distinct(offsets)
    requires w.labware.DestPlate?
    ensures Delivered(GradientBSteps(plate, offsets), w) ==
            if w.labware == DestPlate(plate) && w.row == 0 && 5 - w.column in offsets then GradientVol else 0.0
  {
    if offsets != [] {
      var init := offsets[..|offsets| - 1];
      var o := offsets[|offsets| - 1];
      var s := GradientBStep(plate, o);
      DistinctInit(offsets);
      GradientBStepsDelivered(plate, init, w);
      DeliveredAppend(GradientBSteps(plate, init), s, w);
      Views3(s[0], s[1], s[2], w);
      InInit(offsets, 5 - w.column);
    }
  }

  lemma CellBlockDelivered(e: CellEntry, aspVol: real, w: Well)
    requires w.labware.DestPlate?
    ensures Delivered(CellBlock(e, aspVol), w) == if w == e.well then e.volume else 0.0
  {
    var b := CellBlock(e, aspVol);
    Views4(b[0], b[1], b[2], b[3], w);
    ViewsSnoc([b[0], b[1], b[2], b[3]], b[4], w);
    ViewsSnoc([b[0], b[1], b[2], b[3], b[4]], b[5], w);
    assert [b[0], b[1], b[2], b[3]] + [b[4]] == b[..5];
    assert b[..5] + [b[5]] == b;
  }

  /** The wells of a list of entries. */
  function EntryWells(entries: seq<CellEntry>): seq<Well>
    decreases |entries|
  {
    if entries == [] then [] else EntryWells(entries[..|entries| - 1]) + [entries[|entries| - 1].well]
  }

  /** Each destination well gets, from the cell transfers, the volume of every entry naming it. */
  lemma {:induction false} CellBlocksDelivered(entries: seq<CellEntry>, aspVol: real, w: Well)
    requires w.labware.DestPlate?
    ensures Delivered(CellBlocks(entries, aspVol), w) == EntryVolume(entries, w)
  {
    if entries != [] {
      var init := entries[..|entries| - 1];
      var e := entries[|entries| - 1];
      CellBlocksDelivered(init, aspVol, w);
      DeliveredAppend(CellBlocks(init, aspVol), CellBlock(e, aspVol), w);
      CellBlockDelivered(e, aspVol, w);
    }
  }

  /** The total volume the entries assign to `w`. */
  function EntryVolume(entries: seq<CellEntry>, w: Well): real
    decreases |entries|
  {
    if entries == [] then 0.0
    else EntryVolume(entries[..|entries| - 1], w) + (if entries[|entries| - 1].well == w then entries[|entries| - 1].volume else 0.0)
  }

  lemma {:induction false} EntriesVolume(plate: nat, columns: seq<int>, volume: real, w: Well)
    requires Distinct(columns)
    ensures EntryVolume(Entries(plate, columns, volume), w) ==
            if w.labware == DestPlate(plate) && w.row == 0 && w.column in columns then volume else 0.0
  {
    if columns != [] {
      var init := columns[..|columns| - 1];
      DistinctInit(columns);
      EntriesVolume(plate, init, volume, w);
      InInit(columns, w.column);
    }
  }

  /** `cell_dict_1` lists columns 0, 1 and 2 of row A at 70 uL. */
  lemma CellDict1Entries(plate: nat)
    ensures CellDict1(plate) == Entries(plate, Upto(3), CellHigh)
  {
    UptoShape(3);
    EntriesAt(plate, Upto(3), CellHigh);
  }

  /** The cells of one plate: 70 uL into columns 0-2 and 40 uL into 3-11. */
  lemma CellsDelivered(plate: nat, w: Well)
    requires w.labware.DestPlate?
    ensures Delivered(CellPlan(plate), w) ==
            if w.labware == DestPlate(plate) && w.row == 0 then
              (if 0 <= w.column <= 2 then CellHigh else if 3 <= w.column < 12 then CellLow else 0.0)
            else 0.0
  {
    var d1, d2 := CellDict1(plate), CellDict2(plate);
    var mine := w.labware == DestPlate(plate) && w.row == 0;
    assert Delivered(CellBlocks(d1, CellHigh), w) == if mine && 0 <= w.column <= 2 then CellHigh else 0.0 by {
      CellBlocksDelivered(d1, CellHigh, w);
      CellDict1Entries(plate);
      UptoMembers(3, w.column);
      EntriesVolume(plate, Upto(3), CellHigh, w);
    }
    assert Delivered(CellBlocks(d2, CellLow), w) == if mine && 3 <= w.column < 12 then CellLow else 0.0 by {
      var rest := Upto(12)[4..];
      var head := [CellEntry(Dst(plate, 3), CellLow)];
      CellBlocksDelivered(d2, CellLow, w);
      EntryVolumeAppend(head, Entries(plate, rest, CellLow), w);
      UptoSuffix(12, 4, w.column);
      EntriesVolume(plate, rest, CellLow, w);
      assert EntryVolume(head, w) == if w == Dst(plate, 3) then CellLow else 0.0 by {
        assert head[..0] == [];
      }
    }
    DeliveredAppend(CellBlocks(d1, CellHigh), CellBlocks(d2, CellLow), w);
  }

  lemma {:induction false} EntryVolumeAppend(a: seq<CellEntry>, b: seq<CellEntry>, w: Well)
    ensures EntryVolume(a + b, w) == EntryVolume(a, w) + EntryVolume(b, w)
  {
    if b != [] {
      EntryVolumeAppend(a, b[..|b| - 1], w);
      assert (a + b)[..|a + b| - 1] == a + b[..|b| - 1];
    } else {
      assert a + b == a;
    }
  }

  /** Steps 4-6 on one plate. */
  lemma PlateTransfersDelivered(plate: nat, w: Well)
    requires w.labware.DestPlate?
    ensures Delivered(PlateTransfers(plate), w) ==
            if w.labware == DestPlate(plate) && w.row == 0 then PlateVolume(w.column) else 0.0
  {
    var mine := w.labware == DestPlate(plate) && w.row == 0;
    assert Delivered(GradientAPlan(plate), w) == if mine && 4 <= w.column < 12 then GradientVol else 0.0 by {
      GradientADelivered(plate, 8, w);
    }
    assert Delivered(GradientBPlan(plate), w) == if mine && 4 <= w.column <= 5 then GradientVol else 0.0 by {
      GradientBDelivered(plate, 2, w);
    }
    CellsDelivered(plate, w);
    DeliveredAppend(GradientAPlan(plate), GradientBPlan(plate), w);
    DeliveredAppend(GradientAPlan(plate) + GradientBPlan(plate), CellPlan(plate), w);
  }

  /** Gradient A over offsets 0 to n-1, under one tip. */
  lemma GradientADelivered(plate: nat, n: nat, w: Well)
    requires w.labware.DestPlate?
    ensures Delivered([PickUpTip] + GradientASteps(plate, Upto(n)) + [DropTip], w) ==
            if w.labware == DestPlate(plate) && w.row == 0 && 12 - n <= w.column < 12 then GradientVol else 0.0
  {
    var steps := GradientASteps(plate, Upto(n));
    assert Delivered(steps, w) ==
           if w.labware == DestPlate(plate) && w.row == 0 && 12 - n <= w.column < 12 then GradientVol else 0.0 by {
      UptoMembers(n, 11 - w.column);
      GradientAStepsDelivered(plate, Upto(n), w);
    }
    UnderOneTip(steps, w);
  }

  /** Gradient B over offsets 0 to n-1, under one tip. */
  lemma GradientBDelivered(plate: nat, n: nat, w: Well)
    requires w.labware.DestPlate?
    ensures Delivered([PickUpTip] + GradientBSteps(plate, Upto(n)) + [DropTip], w) ==
            if w.labware == DestPlate(plate) && w.row == 0 && 6 - n <= w.column <= 5 then GradientVol else 0.0
  {
    var steps := GradientBSteps(plate, Upto(n));
    assert Delivered(steps, w) ==
           if w.labware == DestPlate(plate) && w.row == 0 && 6 - n <= w.column <= 5 then GradientVol else 0.0 by {
      UptoMembers(n, 5 - w.column);
      GradientBStepsDelivered(plate, Upto(n), w);
    }
    UnderOneTip(steps, w);
  }

  lemma {:induction false} TransfersDelivered(plates: seq<nat>, w: Well)
    requires Distinct(plates)
    requires w.labware.DestPlate?
    ensures Delivered(TransfersFor(plates), w) ==
            if w.labware.index in plates && w.row == 0 then PlateVolume(w.column) else 0.0
  {
    if plates != [] {
      var init := plates[..|plates| - 1];
      var p := plates[|plates| - 1];
      DistinctInit(plates);
      TransfersDelivered(init, w);
      DeliveredAppend(TransfersFor(init), PlateTransfers(p), w);
      PlateTransfersDelivered(p, w);
      InInit(plates, w.labware.index);
    }
  }

  /** The total in row A of each column of the first plate after a run that completes. */
  function WellTotal(column: int): real
  {
    if 0 <= column <= 5 then 100.0 else if 6 <= column < 12 then 70.0 else 0.0
  }

  /** In a completed run with a plate, row A of columns 0-5 of the first plate
      ends with 100 uL, but columns 6-11 with 70 uL, because gradient B
      reaches only two columns; without a plate only the reagents arrive. No
      other destination well receives anything. */
  lemma DestinationTotals(replicates: int, w: Well)
    requires w.labware.DestPlate?
    ensures Delivered(MultiPlan(replicates), w) ==
            if w.labware == DestPlate(0) && w.row == 0 then
              (if replicates >= 1 then WellTotal(w.column) else ReagentVolume(w.column))
            else 0.0
  {
    var plates := Upto(PlateCount(replicates));
    var mine := w.labware == DestPlate(0) && w.row == 0;
    assert Delivered(SourcePlan(), w) == 0.0 by {
      DualInducer.PbsPlanDelivered(w);
      APlanViews(w);
      DeliveredAppend(DualInducer.PbsPlan(), APlan(), w);
    }
    assert Delivered(TransfersFor(plates), w) == if replicates >= 1 && mine then PlateVolume(w.column) else 0.0 by {
      PlatesDelivered(replicates, w);
    }
    assert Delivered(ReagentBlocks(), w) == if mine then ReagentVolume(w.column) else 0.0 by {
      ReagentBlocksDelivered(w);
    }
    assert Delivered(MultiPlan(replicates), w) ==
           Delivered(SourcePlan(), w) + Delivered(ReagentBlocks(), w) + Delivered(TransfersFor(plates), w) by {
      DeliveredAppend(SourcePlan(), ReagentBlocks(), w);
      DeliveredAppend(SourcePlan() + ReagentBlocks(), TransfersFor(plates), w);
    }
    assert mine && replicates >= 1 ==> ReagentVolume(w.column) + PlateVolume(w.column) == WellTotal(w.column);
  }

  /** The plate loop reaches the first plate exactly when there is a replicate. */
  lemma PlatesDelivered(replicates: int, w: Well)
    requires w.labware.DestPlate?
    ensures Delivered(TransfersFor(Upto(PlateCount(replicates))), w) ==
            if replicates >= 1 && w.labware == DestPlate(0) && w.row == 0 then PlateVolume(w.column) else 0.0
  {
    UptoMembers(PlateCount(replicates), w.labware.index);
    TransfersDelivered(Upto(PlateCount(replicates)), w);
  }

  /** The B gradient of the first plate draws from source column 11, the
      column the single-channel chain dilutes. */
  lemma BSourceDiluted(replicates: int)
    requires replicates >= 1
    ensures Src(BSourceColumn(0), 0) in Targets(SinglePlan(replicates))
  {
    BChainViews(11, Src(11, 0));
    RowsDownAt(11, 7, 8);
    assert RowsDown(11, 7, 8)[7] == Src(11, 0);
    var tail := if replicates >= 2 then [PickUpTip, Aspirate(AspVol, Res(2), InducerAspRate)] else [];
    TargetsAppend(BChain(11), tail);
  }

  // ---------------------------------------------------------------------------
  // The protocol as it drives the two pipettes.

  /** `move_liquid`: the pipette holds a tip and nothing else. */
  method MoveLiquidOn(p: Pipette, aspVol: real, dispVol: real, from: Well, to: Well, mixOpt: bool, mixVol: real, mixReps: int)
    requires p.Valid() && p.hasTip && p.held == 0.0
    requires 0.0 <= dispVol <= aspVol <= p.capacity
    requires mixOpt ==> 0.0 <= mixVol && aspVol - dispVol + mixVol <= p.capacity
    modifies p
    ensures p.Valid() && p.hasTip && p.held == 0.0
    ensures p.trace == old(p.trace) + MoveLiquid(aspVol, dispVol, from, to, mixOpt, mixVol, mixReps)
  {
    p.Aspirate(aspVol, from, DefaultRate);
    p.Dispense(dispVol, to, DefaultRate);
    if mixOpt {
      p.Mix(mixReps, mixVol, to);
    }
    p.BlowOut(to);
  }

  /** The inducer's arrival at the head of a chain. */
  method IntroOn(p: Pipette, res: Well, to: Well)
    requires p.Valid() && p.hasTip && p.held == 0.0 && p.capacity >= MixVol
    modifies p
    ensures p.Valid() && p.hasTip && p.held == 0.0
    ensures p.trace == old(p.trace) + Intro(res, to)
  {
    p.Aspirate(AspVol, res, InducerAspRate);
    p.Dispense(DispVol, to, DefaultRate);
    p.Mix(3, MixVol, to);
    p.BlowOut(to);
  }

  /** One cascade step. */
  method CascadeStepOn(p: Pipette, from: Well, to: Well, dispRate: real, blowOut: bool)
    requires p.Valid() && p.hasTip && p.held == 0.0 && p.capacity >= MixVol
    modifies p
    ensures p.Valid() && p.hasTip && p.held == 0.0
    ensures p.trace == old(p.trace) + CascadeStep(from, to, dispRate, blowOut)
  {
    p.Aspirate(AspVol, from, DefaultRate);
    p.Dispense(DispVol, to, dispRate);
    p.Mix(3, MixVol, to);
    if blowOut {
      p.BlowOut(to);
    }
  }

  /** The end of a chain. */
  method EndingOn(p: Pipette, at: Well, finalBlowOut: bool)
    requires p.Valid() && p.hasTip && p.held == 0.0 && p.capacity >= AspVol
    modifies p
    ensures p.Valid() && !p.hasTip
    ensures p.trace == old(p.trace) + Ending(at, finalBlowOut)
  {
    if finalBlowOut {
      p.BlowOut(at);
    }
    p.Aspirate(AspVol, at, DefaultRate);
    p.DropTip();
  }

  /** The cascade of a chain along `path`, one step per pass; the pipette
      still holds its tip afterwards. */
  method CascadeOn(p: Pipette, path: seq<Well>, dispRate: real, blowOut: bool)
    requires |path| > 0
    requires p.Valid() && p.hasTip && p.held == 0.0 && p.capacity >= MixVol
    modifies p
    ensures p.Valid() && p.hasTip && p.held == 0.0
    ensures p.trace == old(p.trace) + Cascade(path, dispRate, blowOut)
  {
    for i := 1 to |path|
      invariant p.Valid() && p.hasTip && p.held == 0.0
      invariant p.trace == old(p.trace) + Cascade(path[..i], dispRate, blowOut)
    {
      CascadeStepOn(p, path[i - 1], path[i], dispRate, blowOut);
      assert path[..i + 1][..i] == path[..i];
      AppendAssoc(old(p.trace), Cascade(path[..i], dispRate, blowOut), CascadeStep(path[i - 1], path[i], dispRate, blowOut));
    }
    assert path[..|path|] == path;
  }

  /** A whole chain under one tip. */
  method ChainOn(p: Pipette, res: Well, path: seq<Well>, dispRate: real, blowOut: bool, finalBlowOut: bool)
    requires |path| > 0
    requires p.Valid() && !p.hasTip && p.capacity >= MixVol
    modifies p
    ensures p.Valid() && !p.hasTip
    ensures p.trace == old(p.trace) + Chain(res, path, dispRate, blowOut, finalBlowOut)
  {
    p.PickUpTip();
    IntroOn(p, res, path[0]);
    CascadeOn(p, path, dispRate, blowOut);
    EndingOn(p, path[|path| - 1], finalBlowOut);
  }

  /** Step 2: the intro into column 7, then `for col in range(7, 0, -1)`
      moves column `col` into column `col`-1, then the discard from column 0. */
  method InducerADilution(p: Pipette)
    requires p.Valid() && !p.hasTip && p.capacity >= MixVol
    modifies p
    ensures p.Valid() && !p.hasTip
    ensures p.trace == old(p.trace) + APlan()
  {
    ColumnsDownAt(7, 8);
    ChainOn(p, Res(1), ColumnsDown(7, 8), CascadeDispRate, true, false);
  }

  /** Step 3 on one column: the intro into row H, then `for row in range(7, 0, -1)`
      moves row `row` into row `row`-1, one blow-out and the discard from row A. */
  method InducerBColumn(p: Pipette, column: int)
    requires p.Valid() && !p.hasTip && p.capacity >= MixVol
    modifies p
    ensures p.Valid() && !p.hasTip
    ensures p.trace == old(p.trace) + BChain(column)
  {
    RowsDownAt(column, 7, 8);
    ChainOn(p, Res(2), RowsDown(column, 7, 8), DefaultRate, false, true);
  }

  /** Step 3: replicate r works on source column 11 + r; looking up column 12
      stops the run after the pick-up and the inducer aspiration. */
  method InducerBDilutions(p: Pipette, replicates: int) returns (outcome: RunOutcome)
    requires p.Valid() && !p.hasTip && p.capacity >= MixVol
    modifies p
    ensures outcome == if replicates >= 2 then ColumnIndexError(SourceColumns) else Completed
    ensures p.Valid() && (p.hasTip <==> replicates >= 2)
    ensures p.trace == old(p.trace) + SinglePlan(replicates)
  {
    var inducerbCol := 11;
    var replicate := 0;
    ghost var chains: seq<Op> := [];
    while replicate < replicates
      invariant 0 <= replicate <= 1 && (replicate == 1 ==> replicates >= 1)
      invariant inducerbCol == 11 + replicate
      invariant chains == if replicate == 0 then [] else BChain(11)
      invariant p.Valid() && !p.hasTip && p.trace == old(p.trace) + chains
      decreases replicates - replicate
    {
      if inducerbCol >= SourceColumns {
        ghost var before := p.trace;
        p.PickUpTip();
        p.Aspirate(AspVol, Res(2), InducerAspRate);
        assert p.trace == before + [PickUpTip, Aspirate(AspVol, Res(2), InducerAspRate)];
        AppendAssoc(old(p.trace), chains, [PickUpTip, Aspirate(AspVol, Res(2), InducerAspRate)]);
        outcome := ColumnIndexError(inducerbCol);
        return;
      }
      InducerBColumn(p, inducerbCol);
      chains := BChain(inducerbCol);
      inducerbCol := inducerbCol + 1;
      replicate := replicate + 1;
    }
    if replicate == 0 {
      assert p.trace == old(p.trace);
    }
    outcome := Completed;
  }

  /** Step 1 of the destination setup: 70 uL of diluent from reservoir column 5, 30 uL into column 0. */
  method PbsBlockOn(p: Pipette)
    requires p.Valid() && !p.hasTip && p.capacity >= ReagentAsp
    modifies p
    ensures p.Valid() && !p.hasTip
    ensures p.trace == old(p.trace) + PbsBlock()
  {
    p.PickUpTip();
    p.Aspirate(ReagentAsp, Res(5), DefaultRate);
    p.Dispense(ReagentVol, Dst(0, 0), DefaultRate);
    p.DropTip();
  }

  /** Steps 2 and 3 of the destination setup: 70 uL of an inducer, 30 uL into `only` and 30 uL into column 3. */
  method InducerBlockOn(p: Pipette, res: Well, only: int)
    requires p.Valid() && !p.hasTip && p.capacity >= ReagentAsp
    modifies p
    ensures p.Valid() && !p.hasTip
    ensures p.trace == old(p.trace) + InducerBlock(res, only)
  {
    p.PickUpTip();
    p.Aspirate(ReagentAsp, res, DefaultRate);
    p.Dispense(ReagentVol, Dst(0, only), DefaultRate);
    p.Dispense(ReagentVol, Dst(0, 3), DefaultRate);
    p.DropTip();
  }

  /** The reagent blocks, each tip dropped with what it still holds. */
  method ReagentBlocksOn(p: Pipette)
    requires p.Valid() && !p.hasTip && p.capacity >= ReagentAsp
    modifies p
    ensures p.Valid() && !p.hasTip
    ensures p.trace == old(p.trace) + ReagentBlocks()
  {
    PbsBlockOn(p);
    InducerBlockOn(p, Res(1), 1);
    InducerBlockOn(p, Res(2), 2);
    AppendAssoc(old(p.trace), PbsBlock(), InducerBlock(Res(1), 1));
    AppendAssoc(old(p.trace), PbsBlock() + InducerBlock(Res(1), 1), InducerBlock(Res(2), 2));
  }

  /** Step 4: gradient A onto one plate, under one tip. */
  method GradientAOn(p: Pipette, plate: nat)
    requires p.Valid() && !p.hasTip && p.capacity >= GradientVol
    modifies p
    ensures p.Valid() && !p.hasTip
    ensures p.trace == old(p.trace) + GradientAPlan(plate)
  {
    p.PickUpTip();
    for offset := 0 to 8
      invariant p.Valid() && p.hasTip && p.held == 0.0
      invariant p.trace == old(p.trace) + [PickUpTip] + GradientASteps(plate, Upto(offset))
    {
      var sourceColIndex := 7 - offset;
      var destColIndex := 11 - offset;
      MoveLiquidOn(p, GradientVol, GradientVol, Src(sourceColIndex, 0), Dst(plate, destColIndex), false, 0.0, 0);
      assert Upto(offset + 1)[..offset] == Upto(offset);
      AppendAssoc(old(p.trace) + [PickUpTip], GradientASteps(plate, Upto(offset)), GradientAStep(plate, offset));
    }
    p.DropTip();
  }

  /** Step 5: gradient B onto one plate, under one tip: `range(2)` reaches destination columns 5 and 4 only. */
  method GradientBOn(p: Pipette, plate: nat)
    requires p.Valid() && !p.hasTip && p.capacity >= GradientVol
    modifies p
    ensures p.Valid() && !p.hasTip
    ensures p.trace == old(p.trace) + GradientBPlan(plate)
  {
    var bSourceColIdx := 11 + plate;
    p.PickUpTip();
    for offset := 0 to 2
      invariant p.Valid() && p.hasTip && p.held == 0.0
      invariant p.trace == old(p.trace) + [PickUpTip] + GradientBSteps(plate, Upto(offset))
    {
      var destColIdx := 5 - offset;
      MoveLiquidOn(p, GradientVol, GradientVol, Src(bSourceColIdx, 0), Dst(plate, destColIdx), false, 0.0, 0);
      assert Upto(offset + 1)[..offset] == Upto(offset);
      AppendAssoc(old(p.trace) + [PickUpTip], GradientBSteps(plate, Upto(offset)), GradientBStep(plate, offset));
    }
    p.DropTip();
  }

  /** `cell_dict_2`: column 3, then columns 4 to 11 added one at a time.
      Every key added is new, so each assignment appends. */
  method BuildCellDict2(plate: nat) returns (cellDict2: seq<CellEntry>)
    ensures cellDict2 == CellDict2(plate)
  {
    UptoShape(12);
    cellDict2 := [CellEntry(Dst(plate, 3), CellLow)];
    for i := 4 to 12
      invariant cellDict2 == [CellEntry(Dst(plate, 3), CellLow)] + Entries(plate, Upto(12)[4..i], CellLow)
    {
      SliceInit(Upto(12), 4, i + 1);
      cellDict2 := cellDict2 + [CellEntry(Dst(plate, i), CellLow)];
    }
    assert Upto(12)[4..12] == Upto(12)[4..];
  }

  /** One cell transfer: a fresh tip, `aspVol` from reservoir column 3, the entry's volume, the mix and the blow-out. */
  method CellOn(p: Pipette, e: CellEntry, aspVol: real)
    requires 0.0 <= e.volume <= aspVol && p.Valid() && !p.hasTip && p.capacity >= aspVol && p.capacity >= aspVol - e.volume + CellMixVol
    modifies p
    ensures p.Valid() && !p.hasTip
    ensures p.trace == old(p.trace) + CellBlock(e, aspVol)
  {
    p.PickUpTip();
    p.Aspirate(aspVol, Res(3), DefaultRate);
    p.Dispense(e.volume, e.well, DefaultRate);
    p.Mix(3, CellMixVol, e.well);
    p.BlowOut(e.well);
    p.DropTip();
  }

  /** The cell transfers for one dictionary, in insertion order, each with a fresh tip. */
  method CellsOn(p: Pipette, entries: seq<CellEntry>, aspVol: real)
    requires forall i :: 0 <= i < |entries| ==> 0.0 <= entries[i].volume <= aspVol && aspVol - entries[i].volume + CellMixVol <= p.capacity
    requires p.Valid() && !p.hasTip && p.capacity >= aspVol
    modifies p
    ensures p.Valid() && !p.hasTip
    ensures p.trace == old(p.trace) + CellBlocks(entries, aspVol)
  {
    for i := 0 to |entries|
      invariant p.Valid() && !p.hasTip
      invariant p.trace == old(p.trace) + CellBlocks(entries[..i], aspVol)
    {
      CellOn(p, entries[i], aspVol);
      assert entries[..i + 1][..i] == entries[..i];
      AppendAssoc(old(p.trace), CellBlocks(entries[..i], aspVol), CellBlock(entries[i], aspVol));
    }
    assert entries[..|entries|] == entries;
  }

  /** Step 6 on one plate: the two dictionaries, in order. */
  method CellPlanOn(p: Pipette, plate: nat)
    requires p.Valid() && !p.hasTip && p.capacity >= CellHigh
    modifies p
    ensures p.Valid() && !p.hasTip
    ensures p.trace == old(p.trace) + CellPlan(plate)
  {
    CellsOn(p, CellDict1(plate), CellHigh);
    var cellDict2 := BuildCellDict2(plate);
    CellDict2Shape(plate);
    CellsOn(p, cellDict2, CellLow);
    AppendAssoc(old(p.trace), CellBlocks(CellDict1(plate), CellHigh), CellBlocks(CellDict2(plate), CellLow));
  }

  /** Steps 4-6 on one plate. */
  method PlateOn(p: Pipette, plate: nat)
    requires p.Valid() && !p.hasTip && p.capacity >= CellHigh
    modifies p
    ensures p.Valid() && !p.hasTip
    ensures p.trace == old(p.trace) + PlateTransfers(plate)
  {
    GradientAOn(p, plate);
    GradientBOn(p, plate);
    CellPlanOn(p, plate);
    AppendAssoc(old(p.trace), GradientAPlan(plate), GradientBPlan(plate));
    AppendAssoc(old(p.trace), GradientAPlan(plate) + GradientBPlan(plate), CellPlan(plate));
  }

  /** The plate loop over `[dest_1][:replicates]`. */
  method PlatesOn(p: Pipette, replicates: int)
    requires p.Valid() && !p.hasTip && p.capacity >= CellHigh
    modifies p
    ensures p.Valid() && !p.hasTip
    ensures p.trace == old(p.trace) + TransfersFor(Upto(PlateCount(replicates)))
  {
    var count := PlateCount(replicates);
    for i := 0 to count
      invariant p.Valid() && !p.hasTip
      invariant p.trace == old(p.trace) + TransfersFor(Upto(i))
    {
      PlateOn(p, i);
      assert Upto(i + 1)[..i] == Upto(i);
      AppendAssoc(old(p.trace), TransfersFor(Upto(i)), PlateTransfers(i));
    }
  }

  /** `run`: the source-plate steps, then, unless step 3 stopped the run,
      the destination setup. The check `replicates > 3` comes after step 3,
      which has already stopped every run with two replicates or more. */
  method Run(multi: Pipette, single: Pipette, replicates: int) returns (outcome: RunOutcome)
    requires multi != single
    requires multi.Valid() && !multi.hasTip && multi.capacity >= AspVol
    requires single.Valid() && !single.hasTip && single.capacity >= AspVol
    modifies multi, single
    ensures outcome == if replicates >= 2 then ColumnIndexError(SourceColumns) else Completed
    ensures multi.trace == old(multi.trace) + (if replicates >= 2 then SourcePlan() else MultiPlan(replicates))
    ensures single.trace == old(single.trace) + SinglePlan(replicates)
    ensures multi.Valid() && !multi.hasTip && Feasible(multi.trace, multi.capacity)
    ensures single.Valid() && (single.hasTip <==> replicates >= 2)
  {
    ghost var start := multi.trace;
    DistributePbs(multi);
    InducerADilution(multi);
    AppendAssoc(start, DualInducer.PbsPlan(), APlan());
    outcome := InducerBDilutions(single, replicates);
    if outcome != Completed {
      return;
    }
    assert replicates <= 3;
    ReagentBlocksOn(multi);
    PlatesOn(multi, replicates);
    AppendAssoc(start, SourcePlan(), ReagentBlocks());
    AppendAssoc(start, SourcePlan() + ReagentBlocks(), TransfersFor(Upto(PlateCount(replicates))));
  }
}
