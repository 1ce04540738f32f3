/**
 * The source-plate protocol for two replicates: diluent into the source
 * plate, the inducer-A serial dilution along row A (multi-channel, so each
 * command serves a whole column), and two inducer-B serial dilutions from
 * row H (7) up to row A (0) of columns 9 and 10 (single-channel). Every
 * transfer moves 100 uL. Columns and rows are numbered from 0.
 */
module SourceAgnes {
  import opened Pipetting

  const Volume: real := 100.0
  const MixVolume: real := 150.0
  const MixRepetitions: int := 3

  /** One diluent transfer: aspirate, dispense, blow out. */
  function PbsStep(column: int): seq<Op>
  {
    [Aspirate(Volume, Res(0), DefaultRate), Dispense(Volume, Src(column, 0), DefaultRate), BlowOut(Src(column, 0))]
  }

  /** The diluent transfers into the first `k` diluent columns. */
  function PbsSteps(k: nat): seq<Op>
    requires k <= |DiluentColumns|
  {
    if k == 0 then [] else PbsSteps(k - 1) + PbsStep(DiluentColumns[k - 1])
  }

  /** The first `k` diluent transfers under one tip. */
  function PbsChain(k: nat): seq<Op>
    requires k <= |DiluentColumns|
  {
    [PickUpTip] + PbsSteps(k) + [DropTip]
  }

  /** Step 1: the whole diluent distribution. */
  function PbsPlan(): seq<Op>
  {
    PbsChain(|DiluentColumns|)
  }

  /** One dilution transfer: aspirate, dispense, mix three times, blow out. */
  function MixedTransfer(from: Well, to: Well): seq<Op>
  {
    [Aspirate(Volume, from, DefaultRate), Dispense(Volume, to, DefaultRate), Mix(MixRepetitions, MixVolume, to), BlowOut(to)]
  }

  /** `k` cascade steps along row A from column `top`: `top` into
      `top`-1, ..., `top`-k+1 into `top`-k. */
  function ACascade(top: int, k: nat): seq<Op>
  {
    if k == 0 then [] else ACascade(top, k - 1) + MixedTransfer(Src(top - k + 1, 0), Src(top - k, 0))
  }

  /** Inducer A into column `top`, the cascade down to column 0 and the
      discard from column 0, all under one tip. */
  function AChain(top: nat): seq<Op>
  {
    [PickUpTip] + MixedTransfer(Res(1), Src(top, 0)) + ACascade(top, top) + [Aspirate(Volume, Src(0, 0), DefaultRate), DropTip]
  }

  /** Step 2: the inducer-A gradient over columns 7 down to 0. */
  function APlan(): seq<Op>
  {
    AChain(7)
  }

  /** `k` cascade steps down `column` from row `top`: `top` into `top`-1, ... */
  function BCascade(column: int, top: int, k: nat): seq<Op>
  {
    if k == 0 then [] else BCascade(column, top, k - 1) + MixedTransfer(Src(column, top - k + 1), Src(column, top - k))
  }

  /** Inducer B into row `top` of `column` and the cascade down to row 0, under one tip. */
  function BChain(column: int, top: nat): seq<Op>
  {
    [PickUpTip] + MixedTransfer(Res(2), Src(column, top)) + BCascade(column, top, top) + [DropTip]
  }

  /** Step 3 for one column: the inducer-B gradient over rows 7 down to 0. */
  function BPlan(column: int): seq<Op>
  {
    BChain(column, 7)
  }

  // ---------------------------------------------------------------------------
  // What the plans do to the wells.

  /** One diluent transfer draws from reservoir well 0 and fills the row-A well of `column`. */
  lemma PbsStepViews(column: int, w: Well)
    ensures Sources(PbsStep(column)) == [Res(0)]
    ensures Targets(PbsStep(column)) == [Src(column, 0)]
    ensures Delivered(PbsStep(column), w) ==
            (if w == Src(column, 0) then Volume else 0.0) - (if w == Res(0) then Volume else 0.0)
  {
    Views3(Aspirate(Volume, Res(0), DefaultRate), Dispense(Volume, Src(column, 0), DefaultRate), BlowOut(Src(column, 0)), w);
  }

  /** One dilution transfer moves 100 uL from `from` to `to`. */
  lemma MixedTransferViews(from: Well, to: Well, w: Well)
    ensures Sources(MixedTransfer(from, to)) == [from]
    ensures Targets(MixedTransfer(from, to)) == [to]
    ensures Delivered(MixedTransfer(from, to), w) ==
            (if w == to then Volume else 0.0) - (if w == from then Volume else 0.0)
  {
    Views4(Aspirate(Volume, from, DefaultRate), Dispense(Volume, to, DefaultRate), Mix(MixRepetitions, MixVolume, to), BlowOut(to), w);
  }

  /** The first `k` diluent transfers all draw from reservoir well 0 and fill
      the first `k` diluent columns in order. */
  lemma {:induction false} PbsStepsShape(k: nat)
    requires k <= |DiluentColumns|
    ensures Sources(PbsSteps(k)) == Repeat(Res(0), k)
    ensures Targets(PbsSteps(k)) == DiluentWells(k)
  {
    if k > 0 {
      var c := DiluentColumns[k - 1];
      PbsStepsShape(k - 1);
      SourcesAppend(PbsSteps(k - 1), PbsStep(c));
      TargetsAppend(PbsSteps(k - 1), PbsStep(c));
      PbsStepViews(c, Res(0));
    }
  }

  /** The first `k` diluent transfers take `k` times 100 uL from reservoir
      well 0 and put 100 uL into each of the first `k` diluent columns. */
  lemma {:induction false} PbsStepsDelivered(k: nat, w: Well)
    requires k <= |DiluentColumns|
    ensures Delivered(PbsSteps(k), w) ==
            if w == Res(0) then -Volume * k as real
            else if w in DiluentWells(k) then Volume else 0.0
  {
    if k > 0 {
      var c := DiluentColumns[k - 1];
      PbsStepsDelivered(k - 1, w);
      DeliveredAppend(PbsSteps(k - 1), PbsStep(c), w);
      PbsStepViews(c, w);
      DiluentWellsBefore(k - 1, k - 1);
    }
  }

  /** Step 1 over the first `k` diluent columns aspirates only from reservoir
      well 0 and dispenses into the row-A well of each column once, in order. */
  lemma PbsChainShape(k: nat)
    requires k <= |DiluentColumns|
    ensures Sources(PbsChain(k)) == Repeat(Res(0), k)
    ensures Targets(PbsChain(k)) == DiluentWells(k)
  {
    PbsStepsShape(k);
    SourcesAppend([PickUpTip], PbsSteps(k));
    SourcesAppend([PickUpTip] + PbsSteps(k), [DropTip]);
    TargetsAppend([PickUpTip], PbsSteps(k));
    TargetsAppend([PickUpTip] + PbsSteps(k), [DropTip]);
  }

  /** Step 1 over the first `k` diluent columns moves 100 uL from reservoir
      well 0 into the row-A well of each of those columns and nowhere else. */
  lemma PbsChainDelivered(k: nat, w: Well)
    requires k <= |DiluentColumns|
    ensures Delivered(PbsChain(k), w) ==
            if w == Res(0) then -Volume * k as real
            else if w.labware == SourcePlate && w.row == 0 && w.column in DiluentColumns[..k] then Volume else 0.0
  {
    PbsStepsDelivered(k, w);
    DiluentWellsMembers(k, w);
    DeliveredAppend([PickUpTip], PbsSteps(k), w);
    DeliveredAppend([PickUpTip] + PbsSteps(k), [DropTip], w);
  }

  /** `k` cascade steps along row A from column `top` aspirate from
      columns `top`, `top`-1, ... and dispense into columns `top`-1, ... */
  lemma {:induction false} ACascadeShape(top: int, k: nat)
    ensures Sources(ACascade(top, k)) == ColumnsDown(top, k)
    ensures Targets(ACascade(top, k)) == ColumnsDown(top - 1, k)
  {
    if k > 0 {
      var step := MixedTransfer(Src(top - k + 1, 0), Src(top - k, 0));
      ACascadeShape(top, k - 1);
      SourcesAppend(ACascade(top, k - 1), step);
      TargetsAppend(ACascade(top, k - 1), step);
      MixedTransferViews(Src(top - k + 1, 0), Src(top - k, 0), Res(0));
    }
  }

  /** After `k` cascade steps from column `top`, column `top` has lost
      100 uL, column `top`-k has gained 100 uL and every column in between is
      as it was. */
  lemma {:induction false} ACascadeDelivered(top: int, k: nat, w: Well)
    ensures Delivered(ACascade(top, k), w) ==
            (if w == Src(top - k, 0) then Volume else 0.0) - (if w == Src(top, 0) then Volume else 0.0)
  {
    if k > 0 {
      ACascadeDelivered(top, k - 1, w);
      DeliveredAppend(ACascade(top, k - 1), MixedTransfer(Src(top - k + 1, 0), Src(top - k, 0)), w);
      MixedTransferViews(Src(top - k + 1, 0), Src(top - k, 0), w);
    }
  }

  /** The inducer-A chain from column `top` aspirates `top`+2 times: from
      reservoir well 1, then from columns `top` down to 0, the last being the
      discard. */
  lemma AChainSources(top: nat)
    ensures Sources(AChain(top)) == [Res(1)] + ColumnsDown(top, top + 1)
  {
    var first := MixedTransfer(Res(1), Src(top, 0));
    var last := [Aspirate(Volume, Src(0, 0), DefaultRate), DropTip];
    ACascadeShape(top, top);
    MixedTransferViews(Res(1), Src(top, 0), Res(0));
    ViewsSnoc([Aspirate(Volume, Src(0, 0), DefaultRate)], DropTip, Res(0));
    assert [Aspirate(Volume, Src(0, 0), DefaultRate)] + [DropTip] == last;
    assert Sources(last) == [Src(0, 0)];
    SourcesAppend([PickUpTip], first);
    assert Sources([PickUpTip] + first) == [Res(1)];
    SourcesAppend([PickUpTip] + first, ACascade(top, top));
    SourcesAppend([PickUpTip] + first + ACascade(top, top), last);
    AppendAssoc([Res(1)], ColumnsDown(top, top), [Src(0, 0)]);
  }

  /** The inducer-A chain from column `top` dispenses `top`+1 times, into
      columns `top` down to 0. */
  lemma AChainTargets(top: nat)
    ensures Targets(AChain(top)) == ColumnsDown(top, top + 1)
  {
    var first := MixedTransfer(Res(1), Src(top, 0));
    var last := [Aspirate(Volume, Src(0, 0), DefaultRate), DropTip];
    ACascadeShape(top, top);
    MixedTransferViews(Res(1), Src(top, 0), Res(0));
    ViewsSnoc([Aspirate(Volume, Src(0, 0), DefaultRate)], DropTip, Res(0));
    assert [Aspirate(Volume, Src(0, 0), DefaultRate)] + [DropTip] == last;
    assert Targets(last) == [];
    TargetsAppend([PickUpTip], first);
    assert Targets([PickUpTip] + first) == [Src(top, 0)];
    TargetsAppend([PickUpTip] + first, ACascade(top, top));
    TargetsAppend([PickUpTip] + first + ACascade(top, top), last);
    ColumnsDownCons(top, top);
  }

  /** The final discard of the inducer-A chain takes back the 100 uL its first
      transfer brought, so every source-plate well ends as it started and only
      reservoir well 1 loses 100 uL. */
  lemma AChainDelivered(top: nat, w: Well)
    ensures Delivered(AChain(top), w) == if w == Res(1) then -Volume else 0.0
  {
    var first := MixedTransfer(Res(1), Src(top, 0));
    var last := [Aspirate(Volume, Src(0, 0), DefaultRate), DropTip];
    ACascadeDelivered(top, top, w);
    MixedTransferViews(Res(1), Src(top, 0), w);
    DeliveredAppend([PickUpTip], first, w);
    DeliveredAppend([PickUpTip] + first, ACascade(top, top), w);
    DeliveredAppend([PickUpTip] + first + ACascade(top, top), last, w);
  }

  /** `k` cascade steps down `column` from row `top` aspirate from rows `top`,
      `top`-1, ... and dispense into rows `top`-1, ... */
  lemma {:induction false} BCascadeShape(column: int, top: int, k: nat)
    ensures Sources(BCascade(column, top, k)) == RowsDown(column, top, k)
    ensures Targets(BCascade(column, top, k)) == RowsDown(column, top - 1, k)
  {
    if k > 0 {
      var step := MixedTransfer(Src(column, top - k + 1), Src(column, top - k));
      BCascadeShape(column, top, k - 1);
      SourcesAppend(BCascade(column, top, k - 1), step);
      TargetsAppend(BCascade(column, top, k - 1), step);
      MixedTransferViews(Src(column, top - k + 1), Src(column, top - k), Res(0));
    }
  }

  /** After `k` cascade steps down `column` from row `top`, row `top` has lost
      100 uL, row `top`-k has gained 100 uL and every row in between is as it
      was. */
  lemma {:induction false} BCascadeDelivered(column: int, top: int, k: nat, w: Well)
    ensures Delivered(BCascade(column, top, k), w) ==
            (if w == Src(column, top - k) then Volume else 0.0) - (if w == Src(column, top) then Volume else 0.0)
  {
    if k > 0 {
      BCascadeDelivered(column, top, k - 1, w);
      DeliveredAppend(BCascade(column, top, k - 1), MixedTransfer(Src(column, top - k + 1), Src(column, top - k)), w);
      MixedTransferViews(Src(column, top - k + 1), Src(column, top - k), w);
    }
  }

  /** The inducer-B chain down `column` from row `top` aspirates `top`+1
      times: from reservoir well 2, then from rows `top` down to 1. There is no
      discard aspirate. */
  lemma BChainSources(column: int, top: nat)
    ensures Sources(BChain(column, top)) == [Res(2)] + RowsDown(column, top, top)
  {
    var first := MixedTransfer(Res(2), Src(column, top));
    BCascadeShape(column, top, top);
    MixedTransferViews(Res(2), Src(column, top), Res(0));
    SourcesAppend([PickUpTip], first);
    assert Sources([PickUpTip] + first) == [Res(2)];
    SourcesAppend([PickUpTip] + first, BCascade(column, top, top));
    SourcesAppend([PickUpTip] + first + BCascade(column, top, top), [DropTip]);
  }

  /** The inducer-B chain down `column` from row `top` dispenses `top`+1
      times, into rows `top` down to 0. */
  lemma BChainTargets(column: int, top: nat)
    ensures Targets(BChain(column, top)) == RowsDown(column, top, top + 1)
  {
    var first := MixedTransfer(Res(2), Src(column, top));
    BCascadeShape(column, top, top);
    MixedTransferViews(Res(2), Src(column, top), Res(0));
    TargetsAppend([PickUpTip], first);
    assert Targets([PickUpTip] + first) == [Src(column, top)];
    TargetsAppend([PickUpTip] + first, BCascade(column, top, top));
    TargetsAppend([PickUpTip] + first + BCascade(column, top, top), [DropTip]);
    RowsDownCons(column, top, top);
  }

  /** Without a discard, row 0 of the column keeps an extra 100 uL and
      reservoir well 2 loses 100 uL; every other well is as it was. */
  lemma BChainDelivered(column: int, top: nat, w: Well)
    ensures Delivered(BChain(column, top), w) ==
            if w == Res(2) then -Volume else if w == Src(column, 0) then Volume else 0.0
  {
    var first := MixedTransfer(Res(2), Src(column, top));
    BCascadeDelivered(column, top, top, w);
    MixedTransferViews(Res(2), Src(column, top), w);
    DeliveredAppend([PickUpTip], first, w);
    DeliveredAppend([PickUpTip] + first, BCascade(column, top, top), w);
    DeliveredAppend([PickUpTip] + first + BCascade(column, top, top), [DropTip], w);
  }

  /** What the multi-channel pipette leaves in row A of the source plate:
      100 uL in each diluent column (the inducer-A chain moves liquid but
      returns each column to its volume) and nothing anywhere else. */
  lemma MultiChannelRowA(column: int)
    ensures Delivered(PbsPlan() + APlan(), Src(column, 0)) == if column in DiluentColumns then Volume else 0.0
  {
    var w := Src(column, 0);
    PbsChainDelivered(|DiluentColumns|, w);
    assert DiluentColumns[..|DiluentColumns|] == DiluentColumns;
    AChainDelivered(7, w);
    DeliveredAppend(PbsPlan(), APlan(), w);
  }

  /** What the single-channel pipette leaves in the source plate: an extra
      100 uL in row A of columns 9 and 10, and every other well as it was. */
  lemma SingleChannelSurplus(w: Well)
    requires w.labware == SourcePlate
    ensures Delivered(BPlan(9) + BPlan(10), w) == if w == Src(9, 0) || w == Src(10, 0) then Volume else 0.0
  {
    BChainDelivered(9, 7, w);
    BChainDelivered(10, 7, w);
    DeliveredAppend(BPlan(9), BPlan(10), w);
  }

  // ---------------------------------------------------------------------------
  // The script, command by command.

  method PbsTransfer(multi: Pipette, column: int)
    requires multi.Valid() && multi.hasTip && multi.held == 0.0 && multi.capacity >= Volume
    modifies multi
    ensures multi.Valid() && multi.hasTip && multi.held == 0.0
    ensures multi.trace == old(multi.trace) + PbsStep(column)
  {
    var dest := Src(column, 0);
    multi.Aspirate(Volume, Res(0), DefaultRate);
    multi.Dispense(Volume, dest, DefaultRate);
    multi.BlowOut(dest);
    assert multi.trace == old(multi.trace) + PbsStep(column);
  }

  /** The loop of step 1: `for col in diluent_columns`. */
  method PbsLoop(multi: Pipette)
    requires multi.Valid() && multi.hasTip && multi.held == 0.0 && multi.capacity >= Volume
    modifies multi
    ensures multi.Valid() && multi.hasTip && multi.held == 0.0
    ensures multi.trace == old(multi.trace) + PbsSteps(|DiluentColumns|)
  {
    var columns := DiluentColumns;
    for k := 0 to |columns|
      invariant multi.Valid() && multi.hasTip && multi.held == 0.0
      invariant multi.trace == old(multi.trace) + PbsSteps(k)
    {
      PbsTransfer(multi, columns[k]);
      AppendAssoc(old(multi.trace), PbsSteps(k), PbsStep(columns[k]));
    }
  }

  method DistributePbs(multi: Pipette)
    requires multi.Valid() && !multi.hasTip && multi.capacity >= Volume
    modifies multi
    ensures multi.Valid() && !multi.hasTip
    ensures multi.trace == old(multi.trace) + PbsPlan()
  {
    ghost var start := multi.trace;
    multi.PickUpTip();
    PbsLoop(multi);
    multi.DropTip();
    AppendAssoc(start, [PickUpTip], PbsSteps(|DiluentColumns|));
    AppendAssoc(start, [PickUpTip] + PbsSteps(|DiluentColumns|), [DropTip]);
  }

  method Transfer(p: Pipette, from: Well, to: Well)
    requires p.Valid() && p.hasTip && p.held == 0.0 && p.capacity >= MixVolume
    modifies p
    ensures p.Valid() && p.hasTip && p.held == 0.0
    ensures p.trace == old(p.trace) + MixedTransfer(from, to)
  {
    p.Aspirate(Volume, from, DefaultRate);
    p.Dispense(Volume, to, DefaultRate);
    p.Mix(MixRepetitions, MixVolume, to);
    p.BlowOut(to);
    assert p.trace == old(p.trace) + MixedTransfer(from, to);
  }

  /** The cascade loop of step 2: `for col in range(7, 0, -1)`. */
  method ACascadeLoop(multi: Pipette)
    requires multi.Valid() && multi.hasTip && multi.held == 0.0 && multi.capacity >= MixVolume
    modifies multi
    ensures multi.Valid() && multi.hasTip && multi.held == 0.0
    ensures multi.trace == old(multi.trace) + ACascade(7, 7)
  {
    var column := 7;
    while column > 0
      invariant 0 <= column <= 7
      invariant multi.Valid() && multi.hasTip && multi.held == 0.0
      invariant multi.trace == old(multi.trace) + ACascade(7, 7 - column)
    {
      Transfer(multi, Src(column, 0), Src(column - 1, 0));
      AppendAssoc(old(multi.trace), ACascade(7, 7 - column), MixedTransfer(Src(column, 0), Src(column - 1, 0)));
      column := column - 1;
    }
  }

  method InducerADilution(multi: Pipette)
    requires multi.Valid() && !multi.hasTip && multi.capacity >= MixVolume
    modifies multi
    ensures multi.Valid() && !multi.hasTip
    ensures multi.trace == old(multi.trace) + APlan()
  {
    ghost var start := multi.trace;
    ghost var first := [PickUpTip] + MixedTransfer(Res(1), Src(7, 0));
    multi.PickUpTip();
    Transfer(multi, Res(1), Src(7, 0));
    AppendAssoc(start, [PickUpTip], MixedTransfer(Res(1), Src(7, 0)));
    ACascadeLoop(multi);
    AppendAssoc(start, first, ACascade(7, 7));
    multi.Aspirate(Volume, Src(0, 0), DefaultRate);
    multi.DropTip();
    AppendAssoc(start + first + ACascade(7, 7), [Aspirate(Volume, Src(0, 0), DefaultRate)], [DropTip]);
    AppendAssoc(start, first + ACascade(7, 7), [Aspirate(Volume, Src(0, 0), DefaultRate), DropTip]);
  }

  /** The cascade loop of step 3 for one column: `for row in range(7, 0, -1)`. */
  method BCascadeLoop(single: Pipette, column: int)
    requires single.Valid() && single.hasTip && single.held == 0.0 && single.capacity >= MixVolume
    modifies single
    ensures single.Valid() && single.hasTip && single.held == 0.0
    ensures single.trace == old(single.trace) + BCascade(column, 7, 7)
  {
    var row := 7;
    while row > 0
      invariant 0 <= row <= 7
      invariant single.Valid() && single.hasTip && single.held == 0.0
      invariant single.trace == old(single.trace) + BCascade(column, 7, 7 - row)
    {
      Transfer(single, Src(column, row), Src(column, row - 1));
      AppendAssoc(old(single.trace), BCascade(column, 7, 7 - row), MixedTransfer(Src(column, row), Src(column, row - 1)));
      row := row - 1;
    }
  }

  method InducerBColumn(single: Pipette, column: int)
    requires single.Valid() && !single.hasTip && single.capacity >= MixVolume
    modifies single
    ensures single.Valid() && !single.hasTip
    ensures single.trace == old(single.trace) + BPlan(column)
  {
    ghost var start := single.trace;
    ghost var first := [PickUpTip] + MixedTransfer(Res(2), Src(column, 7));
    single.PickUpTip();
    Transfer(single, Res(2), Src(column, 7));
    AppendAssoc(start, [PickUpTip], MixedTransfer(Res(2), Src(column, 7)));
    BCascadeLoop(single, column);
    AppendAssoc(start, first, BCascade(column, 7, 7));
    single.DropTip();
    AppendAssoc(start, first + BCascade(column, 7, 7), [DropTip]);
  }

  method InducerBDilutions(single: Pipette)
    requires single.Valid() && !single.hasTip && single.capacity >= MixVolume
    modifies single
    ensures single.Valid() && !single.hasTip
    ensures single.trace == old(single.trace) + BPlan(9) + BPlan(10)
  {
    InducerBColumn(single, 9);
    InducerBColumn(single, 10);
    AppendAssoc(old(single.trace), BPlan(9), BPlan(10));
  }

  /**
   * The whole script: steps 1 and 2 on the multi-channel pipette, step 3 on
   * the single-channel one. Each pipette's command list grows by its plan and
   * stays feasible (every tip picked up is dropped, no volume goes negative or
   * exceeds the capacity).
   */
  method Protocol(multi: Pipette, single: Pipette)
    requires multi != single
    requires multi.Valid() && !multi.hasTip && multi.capacity >= MixVolume
    requires single.Valid() && !single.hasTip && single.capacity >= MixVolume
    modifies multi, single
    ensures multi.trace == old(multi.trace) + PbsPlan() + APlan() && Feasible(multi.trace, multi.capacity)
    ensures single.trace == old(single.trace) + BPlan(9) + BPlan(10) && Feasible(single.trace, single.capacity)
  {
    DistributePbs(multi);
    InducerADilution(multi);
    AppendAssoc(old(multi.trace), PbsPlan(), APlan());
    InducerBDilutions(single);
  }
}
