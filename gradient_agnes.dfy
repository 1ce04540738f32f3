/**
 * The general gradient script: it reads the dilution table exported by the
 * configuration editor and, with one multi-channel pipette, adds the diluent
 * volumes under one tip, the stock volumes under a second tip, and then the
 * cells into every column with a fresh tip each. The exported arrays and the
 * total volume are parameters; the plate is the only destination plate.
 */
module GradientAgnes {
  import opened Pipetting
  import Dilution

  /** `source.wells()[0..2]` of the reservoir. */
  function DiluentWell(): Well { Res(0) }
  function StockWell(): Well { Res(1) }
  function CellWell(): Well { Res(2) }

  /** The mix after each stock addition, and the slowed cell mix cycles. */
  const MixVol: real := 80.0
  const MixReps: nat := 3
  const CellMixRate: real := 0.8

  /** Row A of column `i` of the plate. */
  function Col(i: int): Well { Well(DestPlate(0), i, 0) }

  /** Whether `w` is row A of a plate column in [lo, hi). */
  predicate InColumns(w: Well, lo: int, hi: int)
  {
    w.labware == DestPlate(0) && w.row == 0 && lo <= w.column < hi
  }

  // ---------------------------------------------------------------------------
  // The plan.

  /** Step 1 for column i: the diluent volume in, then a blow-out. */
  function DiluentStep(v: real, i: int): seq<Op>
  {
    [Aspirate(v, DiluentWell(), DefaultRate), Dispense(v, Col(i), DefaultRate), BlowOut(Col(i))]
  }

  /** Step 1 for columns lo to hi-1, in order. */
  function DiluentSteps(vols: seq<real>, lo: int, hi: int): seq<Op>
    requires 0 <= lo && (lo < hi ==> hi <= |vols|)
    decreases hi - lo
  {
    if hi <= lo then [] else DiluentSteps(vols, lo, hi - 1) + DiluentStep(vols[hi - 1], hi - 1)
  }

  /** Step 2 for column i: the stock volume in, a 3 x 80 uL mix, then a blow-out. */
  function StockStep(v: real, i: int): seq<Op>
  {
    [Aspirate(v, StockWell(), DefaultRate), Dispense(v, Col(i), DefaultRate), Mix(MixReps, MixVol, Col(i)), BlowOut(Col(i))]
  }

  function StockSteps(vols: seq<real>, lo: int, hi: int): seq<Op>
    requires 0 <= lo && (lo < hi ==> hi <= |vols|)
    decreases hi - lo
  {
    if hi <= lo then [] else StockSteps(vols, lo, hi - 1) + StockStep(vols[hi - 1], hi - 1)
  }

  /** `for mix in range(k)`: 80 uL up and down at the slowed rate. */
  function MixCycles(w: Well, k: nat): seq<Op>
  {
    if k == 0 then [] else MixCycles(w, k - 1) + [Aspirate(MixVol, w, CellMixRate), Dispense(MixVol, w, CellMixRate)]
  }

  /** Step 3 for column i, with a fresh tip: the total volume of cells in,
      three slowed mix cycles, a blow-out. */
  function CellStep(totalVol: real, i: int): seq<Op>
  {
    [PickUpTip, Aspirate(totalVol, CellWell(), DefaultRate), Dispense(totalVol, Col(i), DefaultRate)]
    + MixCycles(Col(i), MixReps) + [BlowOut(Col(i)), DropTip]
  }

  function CellSteps(totalVol: real, lo: int, hi: int): seq<Op>
    decreases hi - lo
  {
    if hi <= lo then [] else CellSteps(totalVol, lo, hi - 1) + CellStep(totalVol, hi - 1)
  }

  /** Step 1: `range(len(final_conc) - 1)` under one tip. */
  function DiluentPlan(diluentVol: seq<real>, n: nat): seq<Op>
    requires |diluentVol| >= n - 1
  {
    [PickUpTip] + DiluentSteps(diluentVol, 0, n - 1) + [DropTip]
  }

  /** Step 2: `range(1, len(final_conc))` under one tip. */
  function StockPlan(stockVol: seq<real>, n: nat): seq<Op>
    requires n >= 2 ==> |stockVol| >= n
  {
    [PickUpTip] + StockSteps(stockVol, 1, n) + [DropTip]
  }

  /** The whole protocol for a table of `n` rows. */
  function Plan(totalVol: real, diluentVol: seq<real>, stockVol: seq<real>, n: nat): seq<Op>
    requires |diluentVol| >= n - 1 && (n >= 2 ==> |stockVol| >= n)
  {
    DiluentPlan(diluentVol, n) + StockPlan(stockVol, n) + CellSteps(totalVol, 0, n)
  }

  // ---------------------------------------------------------------------------
  // What the plan does.

  /** The commands of one cell step, in order: a fresh tip, the cells in, exactly
      three 80 uL cycles at rate 0.8 in the same well, a blow-out and the drop. */
  lemma CellStepShape(totalVol: real, i: int)
    ensures var s := CellStep(totalVol, i);
            && |s| == 11
            && s[0] == PickUpTip && s[1] == Aspirate(totalVol, CellWell(), DefaultRate)
            && s[2] == Dispense(totalVol, Col(i), DefaultRate)
            && (forall j :: 0 <= j < 3 ==>
                  s[3 + 2 * j] == Aspirate(MixVol, Col(i), CellMixRate) && s[4 + 2 * j] == Dispense(MixVol, Col(i), CellMixRate))
            && s[9] == BlowOut(Col(i)) && s[10] == DropTip
  {
    MixCyclesAt(Col(i), MixReps);
  }

  lemma {:induction false} MixCyclesAt(w: Well, k: nat)
    ensures |MixCycles(w, k)| == 2 * k
    ensures forall j :: 0 <= j < k ==>
              MixCycles(w, k)[2 * j] == Aspirate(MixVol, w, CellMixRate) && MixCycles(w, k)[2 * j + 1] == Dispense(MixVol, w, CellMixRate)
  {
    if k > 0 {
      MixCyclesAt(w, k - 1);
    }
  }

  /** A mix cycle takes out what it puts back. */
  lemma {:induction false} MixCyclesDelivered(at: Well, k: nat, w: Well)
    ensures Delivered(MixCycles(at, k), w) == 0.0
    ensures forall x :: x in Targets(MixCycles(at, k)) ==> x == at
  {
    if k > 0 {
      var a, d := Aspirate(MixVol, at, CellMixRate), Dispense(MixVol, at, CellMixRate);
      MixCyclesDelivered(at, k - 1, w);
      ViewsSnoc(MixCycles(at, k - 1), a, w);
      ViewsSnoc(MixCycles(at, k - 1) + [a], d, w);
      assert MixCycles(at, k - 1) + [a] + [d] == MixCycles(at, k);
    }
  }

  lemma {:induction false} DiluentStepsDelivered(vols: seq<real>, lo: int, hi: int, w: Well)
    requires 0 <= lo && (lo < hi ==> hi <= |vols|)
    requires w.labware.DestPlate?
    ensures Delivered(DiluentSteps(vols, lo, hi), w) == if InColumns(w, lo, hi) then vols[w.column] else 0.0
    ensures w in Targets(DiluentSteps(vols, lo, hi)) <==> InColumns(w, lo, hi)
    decreases hi - lo
  {
    if lo < hi {
      var s := DiluentStep(vols[hi - 1], hi - 1);
      DiluentStepsDelivered(vols, lo, hi - 1, w);
      DeliveredAppend(DiluentSteps(vols, lo, hi - 1), s, w);
      TargetsAppend(DiluentSteps(vols, lo, hi - 1), s);
      Views3(s[0], s[1], s[2], w);
    }
  }

  lemma {:induction false} StockStepsDelivered(vols: seq<real>, lo: int, hi: int, w: Well)
    requires 0 <= lo && (lo < hi ==> hi <= |vols|)
    requires w.labware.DestPlate?
    ensures Delivered(StockSteps(vols, lo, hi), w) == if InColumns(w, lo, hi) then vols[w.column] else 0.0
    ensures w in Targets(StockSteps(vols, lo, hi)) <==> InColumns(w, lo, hi)
    decreases hi - lo
  {
    if lo < hi {
      var s := StockStep(vols[hi - 1], hi - 1);
      StockStepsDelivered(vols, lo, hi - 1, w);
      DeliveredAppend(StockSteps(vols, lo, hi - 1), s, w);
      TargetsAppend(StockSteps(vols, lo, hi - 1), s);
      Views4(s[0], s[1], s[2], s[3], w);
    }
  }

  lemma CellStepDelivered(totalVol: real, i: int, w: Well)
    requires w.labware.DestPlate?
    ensures Delivered(CellStep(totalVol, i), w) == if w == Col(i) then totalVol else 0.0
    ensures w in Targets(CellStep(totalVol, i)) <==> w == Col(i)
  {
    var head := [PickUpTip, Aspirate(totalVol, CellWell(), DefaultRate), Dispense(totalVol, Col(i), DefaultRate)];
    var mix := MixCycles(Col(i), MixReps);
    var tail := [BlowOut(Col(i)), DropTip];
    Views3(head[0], head[1], head[2], w);
    MixCyclesDelivered(Col(i), MixReps, w);
    assert Delivered(tail, w) == 0.0 && Targets(tail) == [] by {
      ViewsSnoc([], tail[0], w);
      ViewsSnoc([tail[0]], tail[1], w);
      assert [] + [tail[0]] == [tail[0]];
      assert [tail[0]] + [tail[1]] == tail;
    }
    DeliveredAppend(head, mix, w);
    DeliveredAppend(head + mix, tail, w);
    TargetsAppend(head, mix);
    TargetsAppend(head + mix, tail);
  }

  lemma {:induction false} CellStepsDelivered(totalVol: real, lo: int, hi: int, w: Well)
    requires w.labware.DestPlate?
    ensures Delivered(CellSteps(totalVol, lo, hi), w) == if InColumns(w, lo, hi) then totalVol else 0.0
    ensures w in Targets(CellSteps(totalVol, lo, hi)) <==> InColumns(w, lo, hi)
    decreases hi - lo
  {
    if lo < hi {
      CellStepsDelivered(totalVol, lo, hi - 1, w);
      DeliveredAppend(CellSteps(totalVol, lo, hi - 1), CellStep(totalVol, hi - 1), w);
      TargetsAppend(CellSteps(totalVol, lo, hi - 1), CellStep(totalVol, hi - 1));
      CellStepDelivered(totalVol, hi - 1, w);
    }
  }

  /** Column 0 never receives stock and the last column never receives
      diluent; every column of the table receives cells. */
  lemma Coverage(totalVol: real, diluentVol: seq<real>, stockVol: seq<real>, n: nat, w: Well)
    requires |diluentVol| >= n - 1 && (n >= 2 ==> |stockVol| >= n)
    requires w.labware.DestPlate?
    ensures w in Targets(DiluentPlan(diluentVol, n)) <==> InColumns(w, 0, n - 1)
    ensures w in Targets(StockPlan(stockVol, n)) <==> InColumns(w, 1, n)
    ensures w in Targets(CellSteps(totalVol, 0, n)) <==> InColumns(w, 0, n)
  {
    DiluentStepsDelivered(diluentVol, 0, n - 1, w);
    StockStepsDelivered(stockVol, 1, n, w);
    CellStepsDelivered(totalVol, 0, n, w);
    UnderOneTipTargets(DiluentSteps(diluentVol, 0, n - 1));
    UnderOneTipTargets(StockSteps(stockVol, 1, n));
  }

  lemma UnderOneTipTargets(body: seq<Op>)
    ensures Targets([PickUpTip] + body + [DropTip]) == Targets(body)
  {
    TargetsAppend([PickUpTip], body);
    TargetsAppend([PickUpTip] + body, [DropTip]);
    ViewsSnoc([], PickUpTip, Res(0));
    ViewsSnoc([], DropTip, Res(0));
    assert [] + [PickUpTip] == [PickUpTip] && [] + [DropTip] == [DropTip];
  }

  /** What each plate well ends with: the diluent of its column unless it is
      the last, the stock of its column unless it is the first, and the cells. */
  lemma ColumnTotals(totalVol: real, diluentVol: seq<real>, stockVol: seq<real>, n: nat, w: Well)
    requires |diluentVol| >= n - 1 && (n >= 2 ==> |stockVol| >= n)
    requires w.labware.DestPlate?
    ensures Delivered(Plan(totalVol, diluentVol, stockVol, n), w) ==
            if InColumns(w, 0, n) then
              (if w.column < n - 1 then diluentVol[w.column] else 0.0)
              + (if 1 <= w.column then stockVol[w.column] else 0.0)
              + totalVol
            else 0.0
  {
    assert Delivered(DiluentPlan(diluentVol, n), w) == if InColumns(w, 0, n - 1) then diluentVol[w.column] else 0.0 by {
      DiluentStepsDelivered(diluentVol, 0, n - 1, w);
      UnderOneTip(DiluentSteps(diluentVol, 0, n - 1), w);
    }
    assert Delivered(StockPlan(stockVol, n), w) == if InColumns(w, 1, n) then stockVol[w.column] else 0.0 by {
      StockStepsDelivered(stockVol, 1, n, w);
      UnderOneTip(StockSteps(stockVol, 1, n), w);
    }
    CellStepsDelivered(totalVol, 0, n, w);
    DeliveredAppend(DiluentPlan(diluentVol, n), StockPlan(stockVol, n), w);
    DeliveredAppend(DiluentPlan(diluentVol, n) + StockPlan(stockVol, n), CellSteps(totalVol, 0, n), w);
  }

  /** Fed the arrays of a calculated table, every inner column ends with the
      table's total volume plus the cells, twice the total; column 0 gets no
      stock and the last column no diluent. */
  lemma FromTable(stockConc: real, totalVol: real, targets: seq<real>, i: nat)
    requires |targets| >= 2 && i < |targets|
    ensures var c := Dilution.Unzip(Dilution.Dilutions(stockConc, totalVol, targets));
            var d := Delivered(Plan(totalVol, c.diluentVol, c.stockVol, |targets|), Col(i));
            && (0 < i < |targets| - 1 ==> d == 2.0 * totalVol)
            && (i == 0 ==> d == c.diluentVol[0] + totalVol)
            && (i == |targets| - 1 ==> d == c.stockVol[i] + totalVol)
  {
    var rows := Dilution.Dilutions(stockConc, totalVol, targets);
    var c := Dilution.Unzip(rows);
    Dilution.UnzipAt(rows, i);
    ColumnTotals(totalVol, c.diluentVol, c.stockVol, |targets|, Col(i));
  }

  // ---------------------------------------------------------------------------
  // The script.

  method DiluentStepOn(p: Pipette, v: real, i: int)
    requires p.Valid() && p.hasTip && p.held == 0.0 && 0.0 <= v <= p.capacity
    modifies p
    ensures p.Valid() && p.hasTip && p.held == 0.0
    ensures p.trace == old(p.trace) + DiluentStep(v, i)
  {
    var dest := Col(i);
    p.Aspirate(v, DiluentWell(), DefaultRate);
    p.Dispense(v, dest, DefaultRate);
    p.BlowOut(dest);
  }

  method StockStepOn(p: Pipette, v: real, i: int)
    requires p.Valid() && p.hasTip && p.held == 0.0 && 0.0 <= v <= p.capacity && MixVol <= p.capacity
    modifies p
    ensures p.Valid() && p.hasTip && p.held == 0.0
    ensures p.trace == old(p.trace) + StockStep(v, i)
  {
    var dest := Col(i);
    p.Aspirate(v, StockWell(), DefaultRate);
    p.Dispense(v, dest, DefaultRate);
    p.Mix(MixReps, MixVol, dest);
    p.BlowOut(dest);
  }

  /** Step 1. */
  method AddDiluent(p: Pipette, diluentVol: seq<real>, n: nat)
    requires |diluentVol| >= n - 1
    requires forall i :: 0 <= i < n - 1 ==> 0.0 <= diluentVol[i] <= p.capacity
    requires p.Valid() && !p.hasTip
    modifies p
    ensures p.Valid() && !p.hasTip
    ensures p.trace == old(p.trace) + DiluentPlan(diluentVol, n)
  {
    p.PickUpTip();
    if n >= 1 {
      DiluentLoop(p, diluentVol, n - 1);
    }
    p.DropTip();
  }

  /** The loop of step 1 over columns 0 to count-1, under the tip already held. */
  method DiluentLoop(p: Pipette, diluentVol: seq<real>, count: nat)
    requires |diluentVol| >= count
    requires forall i :: 0 <= i < count ==> 0.0 <= diluentVol[i] <= p.capacity
    requires p.Valid() && p.hasTip && p.held == 0.0
    modifies p
    ensures p.Valid() && p.hasTip && p.held == 0.0
    ensures p.trace == old(p.trace) + DiluentSteps(diluentVol, 0, count)
  {
    for i := 0 to count
      invariant p.Valid() && p.hasTip && p.held == 0.0
      invariant p.trace == old(p.trace) + DiluentSteps(diluentVol, 0, i)
    {
      DiluentStepOn(p, diluentVol[i], i);
      AppendAssoc(old(p.trace), DiluentSteps(diluentVol, 0, i), DiluentStep(diluentVol[i], i));
    }
  }

  /** Step 2's loop over columns 1 to n - 1. */
  method StockLoop(p: Pipette, stockVol: seq<real>, n: nat)
    requires 1 <= n && (n >= 2 ==> |stockVol| >= n)
    requires forall i :: 1 <= i < n ==> 0.0 <= stockVol[i] <= p.capacity
    requires p.Valid() && p.hasTip && p.held == 0.0 && MixVol <= p.capacity
    modifies p
    ensures p.Valid() && p.hasTip && p.held == 0.0
    ensures p.trace == old(p.trace) + StockSteps(stockVol, 1, n)
  {
    for i := 1 to n
      invariant p.Valid() && p.hasTip && p.held == 0.0
      invariant p.trace == old(p.trace) + StockSteps(stockVol, 1, i)
    {
      StockStepOn(p, stockVol[i], i);
      AppendAssoc(old(p.trace), StockSteps(stockVol, 1, i), StockStep(stockVol[i], i));
    }
  }

  /** Step 2. */
  method AddStock(p: Pipette, stockVol: seq<real>, n: nat)
    requires n >= 2 ==> |stockVol| >= n
    requires forall i :: 1 <= i < n ==> 0.0 <= stockVol[i] <= p.capacity
    requires p.Valid() && !p.hasTip && MixVol <= p.capacity
    modifies p
    ensures p.Valid() && !p.hasTip
    ensures p.trace == old(p.trace) + StockPlan(stockVol, n)
  {
    p.PickUpTip();
    ghost var head := p.trace;
    if n >= 1 {
      StockLoop(p, stockVol, n);
    }
    assert p.trace == head + StockSteps(stockVol, 1, n);
    p.DropTip();
    AppendAssoc(old(p.trace), [PickUpTip], StockSteps(stockVol, 1, n));
    AppendAssoc(old(p.trace), [PickUpTip] + StockSteps(stockVol, 1, n), [DropTip]);
  }

  /** Step 3 for one column: the inner `for mix in range(3)` loop. */
  method CellStepOn(p: Pipette, totalVol: real, i: int)
    requires p.Valid() && !p.hasTip && 0.0 <= totalVol <= p.capacity && MixVol <= p.capacity
    modifies p
    ensures p.Valid() && !p.hasTip
    ensures p.trace == old(p.trace) + CellStep(totalVol, i)
  {
    var dest := Col(i);
    p.PickUpTip();
    p.Aspirate(totalVol, CellWell(), DefaultRate);
    p.Dispense(totalVol, dest, DefaultRate);
    ghost var head := p.trace;
    MixCyclesOn(p, dest);
    p.BlowOut(dest);
    p.DropTip();
    ghost var pre := [PickUpTip, Aspirate(totalVol, CellWell(), DefaultRate), Dispense(totalVol, dest, DefaultRate)];
    ghost var mixes := MixCycles(dest, MixReps);
    assert head == old(p.trace) + pre;
    assert p.trace == head + mixes + [BlowOut(dest), DropTip];
    AppendAssoc(old(p.trace), pre, mixes);
    AppendAssoc(old(p.trace), pre + mixes, [BlowOut(dest), DropTip]);
  }

  /** `for mix in range(3)`: 80 uL up and down in the same well at the slowed rate. */
  method MixCyclesOn(p: Pipette, dest: Well)
    requires p.Valid() && p.hasTip && p.held == 0.0 && MixVol <= p.capacity
    modifies p
    ensures p.Valid() && p.hasTip && p.held == 0.0
    ensures p.trace == old(p.trace) + MixCycles(dest, MixReps)
  {
    for mix := 0 to MixReps
      invariant p.Valid() && p.hasTip && p.held == 0.0
      invariant p.trace == old(p.trace) + MixCycles(dest, mix)
    {
      p.Aspirate(MixVol, dest, CellMixRate);
      p.Dispense(MixVol, dest, CellMixRate);
    }
  }

  /** Step 3. */
  method AddCells(p: Pipette, totalVol: real, n: nat)
    requires p.Valid() && !p.hasTip && 0.0 <= totalVol <= p.capacity && MixVol <= p.capacity
    modifies p
    ensures p.Valid() && !p.hasTip
    ensures p.trace == old(p.trace) + CellSteps(totalVol, 0, n)
  {
    for i := 0 to n
      invariant p.Valid() && !p.hasTip
      invariant p.trace == old(p.trace) + CellSteps(totalVol, 0, i)
    {
      CellStepOn(p, totalVol, i);
      AppendAssoc(old(p.trace), CellSteps(totalVol, 0, i), CellStep(totalVol, i));
    }
  }

  /** The script on the loaded configuration: the three steps in order. The
      index accesses need a diluent volume for every column but the last and
      a stock volume for every column but the first; the pipette refuses
      negative volumes and volumes above its capacity. */
  method Protocol(p: Pipette, totalVol: real, diluentVol: seq<real>, stockVol: seq<real>, finalConc: seq<real>)
    requires |diluentVol| >= |finalConc| - 1 && (|finalConc| >= 2 ==> |stockVol| >= |finalConc|)
    requires forall i :: 0 <= i < |finalConc| - 1 ==> 0.0 <= diluentVol[i] <= p.capacity
    requires forall i :: 1 <= i < |finalConc| ==> 0.0 <= stockVol[i] <= p.capacity
    requires 0.0 <= totalVol <= p.capacity && MixVol <= p.capacity
    requires p.Valid() && !p.hasTip
    modifies p
    ensures p.trace == old(p.trace) + Plan(totalVol, diluentVol, stockVol, |finalConc|)
    ensures p.Valid() && !p.hasTip && Feasible(p.trace, p.capacity)
  {
    var n := |finalConc|;
    AddDiluent(p, diluentVol, n);
    AddStock(p, stockVol, n);
    AddCells(p, totalVol, n);
    AppendAssoc(old(p.trace), DiluentPlan(diluentVol, n), StockPlan(stockVol, n));
    AppendAssoc(old(p.trace), DiluentPlan(diluentVol, n) + StockPlan(stockVol, n), CellSteps(totalVol, 0, n));
  }
}
