/**
 * The dual-inducer assay: parameter validation and the deck layout table,
 * then the source-plate gradients (diluent with reservoir rotation, the
 * inducer-A chain along row A, one inducer-B chain per replicate down the
 * last columns) and the destination plates (reagents, gradient A, gradient
 * B, cells).
 *
 * The multi-channel pipette addresses a column by its row-A well; a
 * `distribute` onto whole columns is recorded with their row-A wells.
 */
module DualInducer {
  import opened Outcomes
  import opened Pipetting
  import ResourceTracker

  // ---------------------------------------------------------------------------
  // Parameters.

  /** A value read from the configuration file. */
  datatype ConfigValue = CBool(b: bool) | CInt(i: int) | CFloat(f: real) | CText(text: string) | CNull

  /** The two `ValueError`s of the parameter check. */
  datatype ConfigError = BadReplicates | BadViscous

  /** Python's `value == n` for a configuration value and an integer: a
      boolean compares as 0 or 1, a float by its value, anything else is unequal. */
  predicate EqualsInt(v: ConfigValue, n: int)
  {
    match v
    case CBool(b) => (if b then 1 else 0) == n
    case CInt(i) => i == n
    case CFloat(f) => f == n as real
    case _ => false
  }

  /** `replicates in [1, 2, 3]`. */
  predicate ReplicatesAccepted(v: ConfigValue)
  {
    EqualsInt(v, 1) || EqualsInt(v, 2) || EqualsInt(v, 3)
  }

  /** The replicate count is checked first, then the type of the viscosity flag. */
  function ValidateParameters(replicates: ConfigValue, viscous: ConfigValue): (r: Option<ConfigError>)
    ensures r == Some(BadReplicates) <==> !ReplicatesAccepted(replicates)
    ensures r == Some(BadViscous) <==> ReplicatesAccepted(replicates) && !viscous.CBool?
    ensures r == None <==> ReplicatesAccepted(replicates) && viscous.CBool?
  {
    if !ReplicatesAccepted(replicates) then Some(BadReplicates)
    else if !viscous.CBool? then Some(BadViscous)
    else None
  }

  /** The values the check lets through, listed: the integers 1, 2 and 3, the
      same numbers written as floats, and `true` (which Python equates with 1),
      each with a boolean viscosity flag. */
  lemma AcceptedParameters(replicates: ConfigValue, viscous: ConfigValue)
    ensures ValidateParameters(replicates, viscous) == None <==>
            replicates in {CInt(1), CInt(2), CInt(3), CFloat(1.0), CFloat(2.0), CFloat(3.0), CBool(true)} &&
            viscous in {CBool(false), CBool(true)}
  {
    match replicates
    case CBool(b) =>
    case CInt(i) =>
    case CFloat(f) =>
    case CText(t) =>
    case CNull =>
  }

  /** The deck slots of the destination plates and of the tip racks. */
  datatype Layout = Layout(plateSlots: seq<int>, tipSlots: seq<int>)

  /** `PLATE_LAYOUT`: one entry per supported replicate count. */
  function PlateLayout(replicates: int): (r: Option<Layout>)
    ensures r.Some? <==> 1 <= replicates <= 3
    ensures r.Some? ==> |r.value.plateSlots| == replicates
  {
    if replicates == 1 then Some(Layout([8], [4, 7]))
    else if replicates == 2 then Some(Layout([8, 9], [2, 4, 7, 10]))
    else if replicates == 3 then Some(Layout([8, 9, 11], [1, 2, 4, 7, 10]))
    else None
  }

  /** The slots of a layout are distinct deck slots 1 to 11, and none is the
      reservoir's slot 5 or the source plate's slot 6. */
  predicate SlotsDisjoint(l: Layout)
  {
    var slots := l.plateSlots + l.tipSlots;
    && (forall i, j :: 0 <= i < j < |slots| ==> slots[i] != slots[j])
    && (forall i :: 0 <= i < |slots| ==> 1 <= slots[i] <= 11 && slots[i] != 5 && slots[i] != 6)
  }

  lemma LayoutSlots(replicates: int)
    requires 1 <= replicates <= 3
    ensures |PlateLayout(replicates).value.tipSlots| == [2, 4, 5][replicates - 1]
    ensures SlotsDisjoint(PlateLayout(replicates).value)
  {
    var l := PlateLayout(replicates).value;
    if replicates == 1 {
      assert l.plateSlots + l.tipSlots == [8, 4, 7];
    } else if replicates == 2 {
      assert l.plateSlots + l.tipSlots == [8, 9, 2, 4, 7, 10];
    } else {
      assert l.plateSlots + l.tipSlots == [8, 9, 11, 1, 2, 4, 7, 10];
    }
  }

  /** `RATES`: the slow multiplier for viscous liquids, the default otherwise. */
  function RateMultiplier(viscous: bool): (r: real)
    ensures r == 0.5 <==> viscous
    ensures r == 1.0 <==> !viscous
  {
    if viscous then 0.5 else 1.0
  }

  // ---------------------------------------------------------------------------
  // Volumes and addresses.

  const AspVol: real := 300.0
  const DispVol: real := 300.0
  /** The default mix volume of `move_liquid`. */
  const MixVol: real := 300.0
  const ReagentVol: real := 30.0
  const GradientVol: real := 30.0
  const CellHigh: real := 70.0
  const CellLow: real := 40.0
  const CellMixVol: real := 50.0

  /** The reservoir columns the diluent is drawn from, in turn. */
  const PbsPool: seq<int> := [4, 5, 6, 7]

  /** Row A of column `column` of destination plate `plate`. */
  function Dst(plate: nat, column: int): Well { Well(DestPlate(plate), column, 0) }

  /** Row A of `k` destination columns counting down from `column`. */
  function DestColumnsDown(plate: nat, column: int, k: nat): seq<Well>
  {
    if k == 0 then [] else DestColumnsDown(plate, column, k - 1) + [Dst(plate, column - k + 1)]
  }

  // ---------------------------------------------------------------------------
  // `move_liquid` and `perform_serial_dilution`.

  /** The volume `move_liquid` mixes with: `mix_vol`, or the dispensed volume when `mix_vol` is 0. */
  function MixVolumeOf(mixVol: real, dispVol: real): real
  {
    if mixVol != 0.0 then mixVol else dispVol
  }

  /** Aspirate, dispense, a mix only when `mixReps` is positive, and a blow-out at the destination. */
  function MoveLiquid(aspVol: real, dispVol: real, from: Well, to: Well, rate: real, mixVol: real, mixReps: int): seq<Op>
  {
    if mixReps > 0 then
      [Aspirate(aspVol, from, rate), Dispense(dispVol, to, rate), Mix(mixReps, MixVolumeOf(mixVol, dispVol), to), BlowOut(to)]
    else
      [Aspirate(aspVol, from, rate), Dispense(dispVol, to, rate), BlowOut(to)]
  }

  /** The shape of one `move_liquid`: the mix is there exactly when `mixReps`
      is positive, with `mixVol` or, when that is 0, the dispensed volume. */
  lemma MoveLiquidShape(aspVol: real, dispVol: real, from: Well, to: Well, rate: real, mixVol: real, mixReps: int)
    ensures var ops := MoveLiquid(aspVol, dispVol, from, to, rate, mixVol, mixReps);
            && |ops| == (if mixReps > 0 then 4 else 3)
            && ops[0] == Aspirate(aspVol, from, rate) && ops[1] == Dispense(dispVol, to, rate)
            && ops[|ops| - 1] == BlowOut(to)
            && (mixReps > 0 ==> ops[2] == Mix(mixReps, if mixVol == 0.0 then dispVol else mixVol, to))
  {
  }

  /** One `move_liquid` takes `aspVol` from `from` and puts `dispVol` into `to`. */
  lemma MoveLiquidDelivered(aspVol: real, dispVol: real, from: Well, to: Well, rate: real, mixVol: real, mixReps: int, w: Well)
    ensures Delivered(MoveLiquid(aspVol, dispVol, from, to, rate, mixVol, mixReps), w) ==
            (if w == to then dispVol else 0.0) - (if w == from then aspVol else 0.0)
  {
    MoveLiquidCases(aspVol, dispVol, from, to, rate, mixVol, mixReps, w);
  }

  /** One `move_liquid` aspirates once, from `from`, and dispenses once, into `to`. */
  lemma MoveLiquidEnds(aspVol: real, dispVol: real, from: Well, to: Well, rate: real, mixVol: real, mixReps: int)
    ensures Sources(MoveLiquid(aspVol, dispVol, from, to, rate, mixVol, mixReps)) == [from]
    ensures Targets(MoveLiquid(aspVol, dispVol, from, to, rate, mixVol, mixReps)) == [to]
  {
    MoveLiquidCases(aspVol, dispVol, from, to, rate, mixVol, mixReps, to);
  }

  lemma MoveLiquidCases(aspVol: real, dispVol: real, from: Well, to: Well, rate: real, mixVol: real, mixReps: int, w: Well)
    ensures Sources(MoveLiquid(aspVol, dispVol, from, to, rate, mixVol, mixReps)) == [from]
    ensures Targets(MoveLiquid(aspVol, dispVol, from, to, rate, mixVol, mixReps)) == [to]
    ensures Delivered(MoveLiquid(aspVol, dispVol, from, to, rate, mixVol, mixReps), w) ==
            (if w == to then dispVol else 0.0) - (if w == from then aspVol else 0.0)
  {
    var a, d, b := Aspirate(aspVol, from, rate), Dispense(dispVol, to, rate), BlowOut(to);
    if mixReps > 0 {
      Views4(a, d, Mix(mixReps, MixVolumeOf(mixVol, dispVol), to), b, w);
    } else {
      Views3(a, d, b, w);
    }
  }


  /** `perform_serial_dilution`: one transfer per adjacent pair of `wells`, in
      order, none for fewer than two wells. */
  function SerialDilution(wells: seq<Well>, rate: real, mixReps: int, mixVol: real): seq<Op>
    decreases |wells|
  {
    if |wells| < 2 then []
    else
      SerialDilution(wells[..|wells| - 1], rate, mixReps, mixVol)
      + MoveLiquid(AspVol, DispVol, wells[|wells| - 2], wells[|wells| - 1], rate, mixVol, mixReps)
  }

  /** `perform_serial_dilution` on n wells aspirates n-1 times, from every well but the last, in order. */
  lemma {:induction false} SerialDilutionSources(wells: seq<Well>, rate: real, mixReps: int, mixVol: real)
    requires |wells| > 0
    ensures Sources(SerialDilution(wells, rate, mixReps, mixVol)) == wells[..|wells| - 1]
  {
    if |wells| >= 2 {
      var init := wells[..|wells| - 1];
      var step := MoveLiquid(AspVol, DispVol, wells[|wells| - 2], wells[|wells| - 1], rate, mixVol, mixReps);
      assert Sources(SerialDilution(wells, rate, mixReps, mixVol)) == init[..|init| - 1] + [wells[|wells| - 2]] by {
        SerialDilutionSources(init, rate, mixReps, mixVol);
        SourcesAppend(SerialDilution(init, rate, mixReps, mixVol), step);
        MoveLiquidEnds(AspVol, DispVol, wells[|wells| - 2], wells[|wells| - 1], rate, mixVol, mixReps);
      }
      assert init[..|init| - 1] + [wells[|wells| - 2]] == wells[..|wells| - 1];
    }
  }

  /** `perform_serial_dilution` on n wells dispenses n-1 times, into every well but the first, in order. */
  lemma {:induction false} SerialDilutionTargets(wells: seq<Well>, rate: real, mixReps: int, mixVol: real)
    requires |wells| > 0
    ensures Targets(SerialDilution(wells, rate, mixReps, mixVol)) == wells[1..]
  {
    if |wells| >= 2 {
      var init := wells[..|wells| - 1];
      var step := MoveLiquid(AspVol, DispVol, wells[|wells| - 2], wells[|wells| - 1], rate, mixVol, mixReps);
      assert Targets(SerialDilution(wells, rate, mixReps, mixVol)) == init[1..] + [wells[|wells| - 1]] by {
        SerialDilutionTargets(init, rate, mixReps, mixVol);
        TargetsAppend(SerialDilution(init, rate, mixReps, mixVol), step);
        MoveLiquidEnds(AspVol, DispVol, wells[|wells| - 2], wells[|wells| - 1], rate, mixVol, mixReps);
      }
      assert init[1..] + [wells[|wells| - 1]] == wells[1..];
    }
  }

  /** The volume only moves along the wells: the first well has given 300 uL,
      the last has received 300 uL, and every other well is as it was. */
  lemma {:induction false} SerialDilutionDelivered(wells: seq<Well>, rate: real, mixReps: int, mixVol: real, w: Well)
    requires |wells| > 0
    ensures Delivered(SerialDilution(wells, rate, mixReps, mixVol), w) ==
            (if w == wells[|wells| - 1] then DispVol else 0.0) - (if w == wells[0] then AspVol else 0.0)
  {
    if |wells| >= 2 {
      var init := wells[..|wells| - 1];
      SerialDilutionDelivered(init, rate, mixReps, mixVol, w);
      DeliveredAppend(SerialDilution(init, rate, mixReps, mixVol),
                      MoveLiquid(AspVol, DispVol, wells[|wells| - 2], wells[|wells| - 1], rate, mixVol, mixReps), w);
      MoveLiquidDelivered(AspVol, DispVol, wells[|wells| - 2], wells[|wells| - 1], rate, mixVol, mixReps, w);
    }
  }

  // ---------------------------------------------------------------------------
  // Step A2: the diluent, with reservoir rotation.

  /** The reservoir column draw `k` (from 0) takes the diluent from: five
      draws per pool column. */
  function PbsSource(k: nat): Well
    requires k < 20
  {
    Res(PbsPool[k / 5])
  }

  /** The draw order above is the one the rotating counter of `distribute_pbs` produces. */
  lemma PbsSourceTracked(k: nat)
    requires k < 20
    ensures ResourceTracker.IndexOfDraw(k) < |PbsPool| && PbsSource(k) == Res(PbsPool[ResourceTracker.IndexOfDraw(k)])
  {
    ResourceTracker.DrawIndex(k);
  }

  /** Diluent transfer `k`: 300 uL into row A of source column `column`, at the default rate, without a mix. */
  function PbsTransfer(k: nat, column: int): seq<Op>
    requires k < 20
  {
    MoveLiquid(AspVol, DispVol, PbsSource(k), Src(column, 0), DefaultRate, MixVol, 0)
  }

  /** The transfers into `columns`, in order, the i-th of them being draw i. */
  function PbsTransfers(columns: seq<int>): seq<Op>
    requires |columns| <= 20
    decreases |columns|
  {
    if columns == [] then []
    else PbsTransfers(columns[..|columns| - 1]) + PbsTransfer(|columns| - 1, columns[|columns| - 1])
  }

  /** `distribute_pbs`: the ten diluent columns under one tip. */
  function PbsPlan(): seq<Op>
  {
    [PickUpTip] + PbsTransfers(DiluentColumns) + [DropTip]
  }

  /** The row-A source wells of `columns`, in order. */
  function RowA(columns: seq<int>): seq<Well>
    decreases |columns|
  {
    if columns == [] then [] else RowA(columns[..|columns| - 1]) + [Src(columns[|columns| - 1], 0)]
  }

  /** Draw `i` comes from reservoir column 4 + i / 5: five draws from
      column 5, then five from column 6, and so on. */
  lemma {:induction false} PbsTransfersSources(columns: seq<int>)
    requires |columns| <= 20
    ensures |Sources(PbsTransfers(columns))| == |columns|
    ensures forall i :: 0 <= i < |columns| ==> Sources(PbsTransfers(columns))[i] == Res(4 + i / 5)
  {
    if columns != [] {
      var init := columns[..|columns| - 1];
      var k := |columns| - 1;
      PbsTransfersSources(init);
      SourcesAppend(PbsTransfers(init), PbsTransfer(k, columns[k]));
      MoveLiquidEnds(AspVol, DispVol, PbsSource(k), Src(columns[k], 0), DefaultRate, MixVol, 0);
      assert PbsSource(k) == Res(4 + k / 5);
    }
  }

  /** The diluent goes into row A of each of `columns`, in order, once each. */
  lemma {:induction false} PbsTransfersTargets(columns: seq<int>)
    requires |columns| <= 20
    ensures Targets(PbsTransfers(columns)) == RowA(columns)
  {
    if columns != [] {
      var init := columns[..|columns| - 1];
      var k := |columns| - 1;
      PbsTransfersTargets(init);
      TargetsAppend(PbsTransfers(init), PbsTransfer(k, columns[k]));
      MoveLiquidEnds(AspVol, DispVol, PbsSource(k), Src(columns[k], 0), DefaultRate, MixVol, 0);
    }
  }

  /** On the source plate, row A of each column served holds 300 uL and every other well nothing. */
  lemma {:induction false} PbsTransfersOnPlate(columns: seq<int>, w: Well)
    requires |columns| <= 20 && Distinct(columns)
    requires w.labware == SourcePlate
    ensures Delivered(PbsTransfers(columns), w) == if w.row == 0 && w.column in columns then DispVol else 0.0
  {
    if columns != [] {
      var init := columns[..|columns| - 1];
      var k := |columns| - 1;
      DistinctInit(columns);
      PbsTransfersOnPlate(init, w);
      DeliveredAppend(PbsTransfers(init), PbsTransfer(k, columns[k]), w);
      MoveLiquidDelivered(AspVol, DispVol, PbsSource(k), Src(columns[k], 0), DefaultRate, MixVol, 0, w);
      InInit(columns, w.column);
    }
  }

  /** Reservoir column 4+j has given 300 uL for each of the draws made from it,
      and every other reservoir well nothing. */
  lemma {:induction false} PbsTransfersFromReservoir(columns: seq<int>, w: Well)
    requires |columns| <= 20
    requires w.labware == Reservoir
    ensures Delivered(PbsTransfers(columns), w) ==
            if w.row == 0 then -AspVol * ResourceTracker.DrawsAt(w.column - 4, |columns|) as real else 0.0
  {
    if columns != [] {
      var init := columns[..|columns| - 1];
      var k := |columns| - 1;
      PbsTransfersFromReservoir(init, w);
      DeliveredAppend(PbsTransfers(init), PbsTransfer(k, columns[k]), w);
      MoveLiquidDelivered(AspVol, DispVol, PbsSource(k), Src(columns[k], 0), DefaultRate, MixVol, 0, w);
      assert PbsSource(k) == Res(4 + k / 5);
    }
  }

  /** The diluent transfers touch nothing outside the reservoir and the source plate. */
  lemma {:induction false} PbsTransfersElsewhere(columns: seq<int>, w: Well)
    requires |columns| <= 20
    requires w.labware.DestPlate?
    ensures Delivered(PbsTransfers(columns), w) == 0.0
  {
    if columns != [] {
      var init := columns[..|columns| - 1];
      var k := |columns| - 1;
      PbsTransfersElsewhere(init, w);
      DeliveredAppend(PbsTransfers(init), PbsTransfer(k, columns[k]), w);
      MoveLiquidDelivered(AspVol, DispVol, PbsSource(k), Src(columns[k], 0), DefaultRate, MixVol, 0, w);
    }
  }

  /** Step A2 puts 300 uL into row A of each diluent column and takes 1500 uL
      each from reservoir columns 4 and 5; columns 6 and 7 of the pool stay
      untouched. */
  lemma PbsPlanDelivered(w: Well)
    ensures Delivered(PbsPlan(), w) ==
            if w.labware == SourcePlate && w.row == 0 && w.column in DiluentColumns then DispVol
            else if w == Res(4) || w == Res(5) then -1500.0
            else 0.0
  {
    var body := PbsTransfers(DiluentColumns);
    assert Delivered([PickUpTip] + body + [DropTip], w) == Delivered(body, w) by {
      DeliveredAppend([PickUpTip], body, w);
      DeliveredAppend([PickUpTip] + body, [DropTip], w);
    }
    match w.labware
    case SourcePlate =>
      DiluentColumnsIncreasing();
      PbsTransfersOnPlate(DiluentColumns, w);
    case Reservoir =>
      PbsTransfersFromReservoir(DiluentColumns, w);
      ResourceTracker.DrawsAtClosedForm(w.column - 4, 10);
    case DestPlate(_) =>
      PbsTransfersElsewhere(DiluentColumns, w);
  }
  // ---------------------------------------------------------------------------
  // Steps A3 and A4: the inducer chains.

  /** The shape both inducer gradients share, under one tip: inducer from
      reservoir well `res` into the first well of `path` (mixed three times
      with 300 uL), the serial dilution along `path` (mixing with
      `serialMix`, 0 meaning the dispensed volume), and the discard of 300 uL
      from the last well of `path` at the default rate. */
  function Chain(res: Well, path: seq<Well>, rate: real, serialMix: real): seq<Op>
    requires |path| > 0
  {
    [PickUpTip]
    + MoveLiquid(AspVol, DispVol, res, path[0], rate, MixVol, 3)
    + SerialDilution(path, rate, 3, serialMix)
    + [Aspirate(AspVol, path[|path| - 1], DefaultRate), DropTip]
  }

  /** The views of the discard at the end of a chain. */
  lemma DiscardViews(at: Well, w: Well)
    ensures Sources([Aspirate(AspVol, at, DefaultRate), DropTip]) == [at]
    ensures Targets([Aspirate(AspVol, at, DefaultRate), DropTip]) == []
    ensures Delivered([Aspirate(AspVol, at, DefaultRate), DropTip], w) == if w == at then -AspVol else 0.0
  {
    ViewsSnoc([], Aspirate(AspVol, at, DefaultRate), w);
    ViewsSnoc([Aspirate(AspVol, at, DefaultRate)], DropTip, w);
    assert [] + [Aspirate(AspVol, at, DefaultRate)] == [Aspirate(AspVol, at, DefaultRate)];
    assert [Aspirate(AspVol, at, DefaultRate)] + [DropTip] == [Aspirate(AspVol, at, DefaultRate), DropTip];
  }

  /** A chain aspirates from the reservoir well and then from every well of
      the path in order, the last time for the discard. */
  lemma ChainSources(res: Well, path: seq<Well>, rate: real, serialMix: real)
    requires |path| > 0
    ensures Sources(Chain(res, path, rate, serialMix)) == [res] + path
  {
    var first := MoveLiquid(AspVol, DispVol, res, path[0], rate, MixVol, 3);
    var serial := SerialDilution(path, rate, 3, serialMix);
    var last := [Aspirate(AspVol, path[|path| - 1], DefaultRate), DropTip];
    assert Sources(Chain(res, path, rate, serialMix)) == [] + [res] + path[..|path| - 1] + [path[|path| - 1]] by {
      Append4([PickUpTip], first, serial, last, res);
      PickUpViews(res);
      MoveLiquidEnds(AspVol, DispVol, res, path[0], rate, MixVol, 3);
      SerialDilutionSources(path, rate, 3, serialMix);
      DiscardViews(path[|path| - 1], res);
    }
    assert [] + [res] == [res];
    PrefixSnoc([res], path);
  }

  /** A chain dispenses into every well of the path in order, once each. */
  lemma ChainTargets(res: Well, path: seq<Well>, rate: real, serialMix: real)
    requires |path| > 0
    ensures Targets(Chain(res, path, rate, serialMix)) == path
  {
    var first := MoveLiquid(AspVol, DispVol, res, path[0], rate, MixVol, 3);
    var serial := SerialDilution(path, rate, 3, serialMix);
    var last := [Aspirate(AspVol, path[|path| - 1], DefaultRate), DropTip];
    assert Targets(Chain(res, path, rate, serialMix)) == [] + [path[0]] + path[1..] + [] by {
      Append4([PickUpTip], first, serial, last, res);
      PickUpViews(res);
      MoveLiquidEnds(AspVol, DispVol, res, path[0], rate, MixVol, 3);
      SerialDilutionTargets(path, rate, 3, serialMix);
      DiscardViews(path[|path| - 1], res);
    }
    assert [] + [path[0]] + path[1..] + [] == path;
  }

  /** A chain only moves liquid along its path and discards what it brought
      in: the reservoir well has lost 300 uL and every other well is as it
      was. */
  lemma ChainDelivered(res: Well, path: seq<Well>, rate: real, serialMix: real, w: Well)
    requires |path| > 0
    ensures Delivered(Chain(res, path, rate, serialMix), w) == if w == res then -AspVol else 0.0
  {
    var first := MoveLiquid(AspVol, DispVol, res, path[0], rate, MixVol, 3);
    var serial := SerialDilution(path, rate, 3, serialMix);
    var last := [Aspirate(AspVol, path[|path| - 1], DefaultRate), DropTip];
    Append4([PickUpTip], first, serial, last, w);
    PickUpViews(w);
    MoveLiquidDelivered(AspVol, DispVol, res, path[0], rate, MixVol, 3, w);
    SerialDilutionDelivered(path, rate, 3, serialMix, w);
    DiscardViews(path[|path| - 1], w);
  }

  /** Step A3: inducer A from reservoir column 1 into column `top`, then the
      dilution along row A down to column 0 (mixing with the dispensed
      volume), then the discard from column 0. */
  function AChain(top: nat, rate: real): seq<Op>
  {
    Chain(Res(1), ColumnsDown(top, top + 1), rate, 0.0)
  }

  function APlan(rate: real): seq<Op>
  {
    AChain(7, rate)
  }

  lemma {:induction false} ColumnsDownShape(column: int, k: nat)
    ensures |ColumnsDown(column, k)| == k
    ensures k > 0 ==> ColumnsDown(column, k)[0] == Src(column, 0) && ColumnsDown(column, k)[k - 1] == Src(column - k + 1, 0)
  {
    if k > 0 {
      ColumnsDownShape(column, k - 1);
    }
  }

  /** Step A3 aspirates from reservoir column 1 and then from columns 7 down
      to 0 (the last being the discard), dispenses into columns 7 down to 0,
      and only reservoir column 1 ends with less (300 uL). */
  lemma APlanViews(rate: real, w: Well)
    ensures Sources(APlan(rate)) == [Res(1)] + ColumnsDown(7, 8)
    ensures Targets(APlan(rate)) == ColumnsDown(7, 8)
    ensures Delivered(APlan(rate), w) == if w == Res(1) then -AspVol else 0.0
  {
    ColumnsDownShape(7, 8);
    ChainSources(Res(1), ColumnsDown(7, 8), rate, 0.0);
    ChainTargets(Res(1), ColumnsDown(7, 8), rate, 0.0);
    ChainDelivered(Res(1), ColumnsDown(7, 8), rate, 0.0, w);
  }

  /** Step A4 on one column: inducer B from reservoir column 2 into row H,
      then the dilution up the column to row A (mixing with 300 uL), then the
      discard from row A. */
  function BChain(column: int, rate: real): seq<Op>
  {
    Chain(Res(2), RowsDown(column, 7, 8), rate, MixVol)
  }

  /** The chains on `columns`, in order. */
  function BChains(columns: seq<int>, rate: real): seq<Op>
    decreases |columns|
  {
    if columns == [] then [] else BChains(columns[..|columns| - 1], rate) + BChain(columns[|columns| - 1], rate)
  }

  /** `source_plate.columns()[-replicates:]`: the last `replicates` of the twelve columns. */
  function BColumns(replicates: nat): seq<int>
    requires 1 <= replicates <= 12
  {
    Upto(12)[12 - replicates..]
  }

  /** Step A4: one chain per replicate. */
  function BPlan(replicates: nat, rate: real): seq<Op>
    requires 1 <= replicates <= 12
  {
    BChains(BColumns(replicates), rate)
  }

  lemma {:induction false} RowsDownShape(column: int, row: int, k: nat)
    ensures |RowsDown(column, row, k)| == k
    ensures k > 0 ==> RowsDown(column, row, k)[0] == Src(column, row) && RowsDown(column, row, k)[k - 1] == Src(column, row - k + 1)
  {
    if k > 0 {
      RowsDownShape(column, row, k - 1);
    }
  }

  /** One chain dispenses into the rows H to A of its column, in that order,
      and takes 300 uL from reservoir column 2 and nothing from anywhere else. */
  lemma BChainViews(column: int, rate: real, w: Well)
    ensures Targets(BChain(column, rate)) == RowsDown(column, 7, 8)
    ensures Delivered(BChain(column, rate), w) == if w == Res(2) then -AspVol else 0.0
  {
    RowsDownShape(column, 7, 8);
    ChainTargets(Res(2), RowsDown(column, 7, 8), rate, MixVol);
    ChainDelivered(Res(2), RowsDown(column, 7, 8), rate, MixVol, w);
  }

  /** The chains dispense into a source-plate well of rows A to H exactly when
      its column is one of `columns`. */
  lemma {:induction false} BChainsReach(columns: seq<int>, rate: real, w: Well)
    requires w.labware == SourcePlate && 0 <= w.row <= 7
    ensures w in Targets(BChains(columns, rate)) <==> w.column in columns
  {
    if columns != [] {
      var init := columns[..|columns| - 1];
      var c := columns[|columns| - 1];
      BChainsReach(init, rate, w);
      TargetsAppend(BChains(init, rate), BChain(c, rate));
      BChainViews(c, rate, w);
      RowsDownMembers(c, 7, 8, w);
      InInit(columns, w.column);
    }
  }

  /** The chains take 300 uL from reservoir column 2 per chain and leave
      every other well as it was. */
  lemma {:induction false} BChainsDelivered(columns: seq<int>, rate: real, w: Well)
    ensures Delivered(BChains(columns, rate), w) == if w == Res(2) then -AspVol * |columns| as real else 0.0
  {
    if columns != [] {
      var init := columns[..|columns| - 1];
      var c := columns[|columns| - 1];
      BChainsDelivered(init, rate, w);
      DeliveredAppend(BChains(init, rate), BChain(c, rate), w);
      BChainViews(c, rate, w);
    }
  }

  /** Step A4 dilutes columns 12-replicates to 11 of the source plate. Plate
      `i` later draws its inducer B from row A of column 9+i, so every plate
      draws from a diluted column exactly when there are three replicates. */
  lemma BSourcesDilutedIff(replicates: nat, rate: real)
    requires 1 <= replicates <= 3
    ensures (forall c :: 9 <= c < 9 + replicates ==> Src(c, 0) in Targets(BPlan(replicates, rate))) <==> replicates == 3
  {
    forall c | 9 <= c < 9 + replicates
      ensures Src(c, 0) in Targets(BPlan(replicates, rate)) <==> 12 - replicates <= c
    {
      BChainsReach(BColumns(replicates), rate, Src(c, 0));
      UptoSuffix(12, 12 - replicates, c);
    }
    assert Src(9, 0) in Targets(BPlan(replicates, rate)) <==> replicates == 3;
  }

  // ---------------------------------------------------------------------------
  // Step B1: reagents onto the destination plates.

  /** Diluent (drawn, as written, from the inducer-A well) into column 0,
      inducer A into columns 1 and 3, inducer B into columns 2 and 3, each
      with one tip. */
  function Reagents(plate: nat): seq<Op>
  {
    [ Distribute(ReagentVol, Res(1), [Dst(plate, 0)], Once),
      Distribute(ReagentVol, Res(1), [Dst(plate, 1), Dst(plate, 3)], Once),
      Distribute(ReagentVol, Res(2), [Dst(plate, 2), Dst(plate, 3)], Once) ]
  }

  /** The reagents for each of `plates`, in order. */
  function ReagentsFor(plates: seq<nat>): seq<Op>
    decreases |plates|
  {
    if plates == [] then [] else ReagentsFor(plates[..|plates| - 1]) + Reagents(plates[|plates| - 1])
  }

  // ---------------------------------------------------------------------------
  // Step B2: gradients and cells.

  /** Gradient A transfer `offset`: source column 7-offset into destination
      column 11-offset, mixed once with 10 uL. */
  function GradientStep(plate: nat, offset: int, rate: real): seq<Op>
  {
    MoveLiquid(GradientVol, GradientVol, Src(7 - offset, 0), Dst(plate, 11 - offset), rate, 10.0, 1)
  }

  /** The gradient-A transfers for `offsets`, in order, under one tip. */
  function GradientSteps(plate: nat, offsets: seq<int>, rate: real): seq<Op>
    decreases |offsets|
  {
    if offsets == [] then []
    else GradientSteps(plate, offsets[..|offsets| - 1], rate) + GradientStep(plate, offsets[|offsets| - 1], rate)
  }

  /** Gradient B: one `distribute` of 30 uL from row A of source column 9+plate
      into destination columns 11 down to 4, a fresh tip per target. */
  function GradientB(plate: nat): Op
  {
    Distribute(ReagentVol, Src(9 + plate, 0), DestColumnsDown(plate, 11, 8), Always)
  }

  /** The cell volume of destination column `column`: 70 uL into columns 0-2, 40 uL into the rest. */
  function CellVolume(column: int): real
  {
    if column < 3 then CellHigh else CellLow
  }

  /** What step B1 puts into row A of a column of each plate it serves. */
  function ReagentVolume(column: int): real
  {
    if 0 <= column <= 2 then ReagentVol else if column == 3 then 2.0 * ReagentVol else 0.0
  }

  /** What step B2 puts into row A of each column 0-11 of a plate it serves:
      both gradients into columns 4-11, and the cells. */
  function StepB2Volume(column: int): real
  {
    (if column >= 4 then 2.0 * GradientVol else 0.0) + CellVolume(column)
  }

  /** Cells into one column, under a fresh tip, at the default rate. */
  function CellStep(plate: nat, column: int): seq<Op>
  {
    [PickUpTip]
    + MoveLiquid(CellVolume(column), CellVolume(column), Res(3), Dst(plate, column), DefaultRate, CellMixVol, 3)
    + [DropTip]
  }

  /** The cell transfers into `columns`, in order. */
  function CellSteps(plate: nat, columns: seq<int>): seq<Op>
    decreases |columns|
  {
    if columns == [] then [] else CellSteps(plate, columns[..|columns| - 1]) + CellStep(plate, columns[|columns| - 1])
  }

  /** Everything step B2 does to destination plate `plate`: gradient A under
      one tip, gradient B, then cells into the twelve columns. */
  function PlateTransfers(plate: nat, rate: real): seq<Op>
  {
    [PickUpTip] + GradientSteps(plate, Upto(8), rate) + [DropTip] + [GradientB(plate)] + CellSteps(plate, Upto(12))
  }

  /** Step B2 for each of `plates`, in order. */
  function TransfersFor(plates: seq<nat>, rate: real): seq<Op>
    decreases |plates|
  {
    if plates == [] then [] else TransfersFor(plates[..|plates| - 1], rate) + PlateTransfers(plates[|plates| - 1], rate)
  }

  // ---------------------------------------------------------------------------
  // The whole run.

  /** The multi-channel pipette's commands. */
  function MultiPlan(replicates: nat, rate: real): seq<Op>
  {
    PbsPlan() + APlan(rate) + ReagentsFor(Upto(replicates)) + TransfersFor(Upto(replicates), rate)
  }

  /** The single-channel pipette's commands. */
  function SinglePlan(replicates: nat, rate: real): seq<Op>
    requires 1 <= replicates <= 12
  {
    BPlan(replicates, rate)
  }

  // ---------------------------------------------------------------------------
  // Destination volumes.

  /** What `distribute` puts into a destination well, given the targets' plate. */
  lemma {:induction false} DestColumnsDownCount(plate: nat, column: int, k: nat, w: Well)
    ensures Occurrences(DestColumnsDown(plate, column, k), w) ==
            if w.labware == DestPlate(plate) && w.row == 0 && column - k < w.column <= column then 1 else 0
  {
    if k > 0 {
      DestColumnsDownCount(plate, column, k - 1, w);
      OccurrencesAppend(DestColumnsDown(plate, column, k - 1), [Dst(plate, column - k + 1)], w);
    }
  }

  /** The reagents of one plate: 30 uL into columns 0, 1 and 2 and 60 uL into column 3. */
  lemma ReagentDelivered(plate: nat, w: Well)
    ensures Delivered(Reagents(plate), w) ==
            if w.labware == DestPlate(plate) && w.row == 0 then
              ReagentVolume(w.column)
            else 0.0
  {
    var r := Reagents(plate);
    Views3(r[0], r[1], r[2], w);
    OccurrencesOne(Dst(plate, 0), w);
    OccurrencesOne(Dst(plate, 1), w);
    OccurrencesOne(Dst(plate, 2), w);
    OccurrencesOne(Dst(plate, 3), w);
    OccurrencesAppend([Dst(plate, 1)], [Dst(plate, 3)], w);
    OccurrencesAppend([Dst(plate, 2)], [Dst(plate, 3)], w);
    assert [Dst(plate, 1)] + [Dst(plate, 3)] == [Dst(plate, 1), Dst(plate, 3)];
    assert [Dst(plate, 2)] + [Dst(plate, 3)] == [Dst(plate, 2), Dst(plate, 3)];
  }

  /** The reagents put 30 uL into columns 0, 1 and 2 and 60 uL into column 3 of every plate served. */
  lemma {:induction false} ReagentsDelivered(plates: seq<nat>, w: Well)
    requires Distinct(plates)
    requires w.labware.DestPlate?
    ensures Delivered(ReagentsFor(plates), w) ==
            if w.labware.index in plates && w.row == 0 then
              ReagentVolume(w.column)
            else 0.0
  {
    if plates != [] {
      var init := plates[..|plates| - 1];
      var p := plates[|plates| - 1];
      DistinctInit(plates);
      ReagentsDelivered(init, w);
      DeliveredAppend(ReagentsFor(init), Reagents(p), w);
      ReagentDelivered(p, w);
      InInit(plates, w.labware.index);
    }
  }

  /** Gradient A over `offsets` puts 30 uL into destination column 11-o for each offset o. */
  lemma {:induction false} GradientStepsDelivered(plate: nat, offsets: seq<int>, rate: real, w: Well)
    requires Distinct(offsets)
    requires w.labware.DestPlate?
    ensures Delivered(GradientSteps(plate, offsets, rate), w) ==
            if w.labware == DestPlate(plate) && w.row == 0 && 11 - w.column in offsets then GradientVol else 0.0
  {
    if offsets != [] {
      var init := offsets[..|offsets| - 1];
      var o := offsets[|offsets| - 1];
      DistinctInit(offsets);
      GradientStepsDelivered(plate, init, rate, w);
      DeliveredAppend(GradientSteps(plate, init, rate), GradientStep(plate, o, rate), w);
      MoveLiquidDelivered(GradientVol, GradientVol, Src(7 - o, 0), Dst(plate, 11 - o), rate, 10.0, 1, w);
      InInit(offsets, 11 - w.column);
    }
  }

  /** Gradient A over offsets 0 to n-1 aspirates from row A of source columns 7
      down to 8-n and dispenses into row A of destination columns 11 down to 12-n,
      step by step in that order. */
  lemma {:induction false} GradientStepsEnds(plate: nat, n: nat, rate: real)
    ensures Sources(GradientSteps(plate, Upto(n), rate)) == ColumnsDown(7, n)
    ensures Targets(GradientSteps(plate, Upto(n), rate)) == DestColumnsDown(plate, 11, n)
  {
    if n > 0 {
      var init := GradientSteps(plate, Upto(n - 1), rate);
      var step := GradientStep(plate, n - 1, rate);
      UptoSnoc(n);
      assert GradientSteps(plate, Upto(n), rate) == init + step;
      GradientStepsEnds(plate, n - 1, rate);
      SourcesAppend(init, step);
      TargetsAppend(init, step);
      MoveLiquidEnds(GradientVol, GradientVol, Src(8 - n, 0), Dst(plate, 12 - n), rate, 10.0, 1);
    }
  }

  /** The cells go into row A of each of `columns`: 70 uL into columns 0-2, 40 uL elsewhere. */
  lemma {:induction false} CellStepsDelivered(plate: nat, columns: seq<int>, w: Well)
    requires Distinct(columns)
    requires w.labware.DestPlate?
    ensures Delivered(CellSteps(plate, columns), w) ==
            if w.labware == DestPlate(plate) && w.row == 0 && w.column in columns then CellVolume(w.column) else 0.0
  {
    if columns != [] {
      var init := columns[..|columns| - 1];
      var c := columns[|columns| - 1];
      var move := MoveLiquid(CellVolume(c), CellVolume(c), Res(3), Dst(plate, c), DefaultRate, CellMixVol, 3);
      DistinctInit(columns);
      CellStepsDelivered(plate, init, w);
      DeliveredAppend(CellSteps(plate, init), CellStep(plate, c), w);
      assert Delivered(CellStep(plate, c), w) == Delivered(move, w) by {
        DeliveredAppend([PickUpTip], move, w);
        DeliveredAppend([PickUpTip] + move, [DropTip], w);
      }
      MoveLiquidDelivered(CellVolume(c), CellVolume(c), Res(3), Dst(plate, c), DefaultRate, CellMixVol, 3, w);
      InInit(columns, w.column);
    }
  }

  /** Gradient A over offsets 0 to n-1 puts 30 uL into destination columns 12-n to 11. */
  lemma GradientADelivered(plate: nat, n: nat, rate: real, w: Well)
    requires w.labware.DestPlate?
    ensures Delivered([PickUpTip] + GradientSteps(plate, Upto(n), rate) + [DropTip], w) ==
            if w.labware == DestPlate(plate) && w.row == 0 && 12 - n <= w.column < 12 then GradientVol else 0.0
  {
    var steps := GradientSteps(plate, Upto(n), rate);
    assert Delivered(steps, w) ==
           if w.labware == DestPlate(plate) && w.row == 0 && 12 - n <= w.column < 12 then GradientVol else 0.0 by {
      UptoMembers(n, 11 - w.column);
      GradientStepsDelivered(plate, Upto(n), rate, w);
    }
    UnderOneTip(steps, w);
  }

  /** Cells into columns 0 to n-1. */
  lemma CellsDelivered(plate: nat, n: nat, w: Well)
    requires w.labware.DestPlate?
    ensures Delivered(CellSteps(plate, Upto(n)), w) ==
            if w.labware == DestPlate(plate) && w.row == 0 && 0 <= w.column < n then CellVolume(w.column) else 0.0
  {
    UptoMembers(n, w.column);
    CellStepsDelivered(plate, Upto(n), w);
  }

  /** Gradient B puts 30 uL into destination columns 4 to 11 of its plate. */
  lemma GradientBDelivered(plate: nat, w: Well)
    ensures Delivered([GradientB(plate)], w) ==
            if w.labware == DestPlate(plate) && w.row == 0 && 4 <= w.column < 12 then ReagentVol else 0.0
  {
    DestColumnsDownCount(plate, 11, 8, w);
    ViewsSnoc([], GradientB(plate), w);
    assert [] + [GradientB(plate)] == [GradientB(plate)];
  }

  /** Step B2 on one plate: gradient A and gradient B put 30 uL each into
      columns 5-12, and the cells 70 uL into columns 1-3 and 40 uL into 4-12. */
  lemma PlateTransfersDelivered(plate: nat, rate: real, w: Well)
    requires w.labware.DestPlate?
    ensures Delivered(PlateTransfers(plate, rate), w) ==
            if w.labware == DestPlate(plate) && w.row == 0 && 0 <= w.column < 12 then StepB2Volume(w.column) else 0.0
  {
    var grad := [PickUpTip] + GradientSteps(plate, Upto(8), rate) + [DropTip];
    var b := GradientB(plate);
    GradientADelivered(plate, 8, rate, w);
    GradientBDelivered(plate, w);
    CellsDelivered(plate, 12, w);
    DeliveredAppend(grad, [b], w);
    DeliveredAppend(grad + [b], CellSteps(plate, Upto(12)), w);
  }

  /** Step B2 over distinct `plates`. */
  lemma {:induction false} TransfersDelivered(plates: seq<nat>, rate: real, w: Well)
    requires Distinct(plates)
    requires w.labware.DestPlate?
    ensures Delivered(TransfersFor(plates, rate), w) ==
            if w.labware.index in plates && w.row == 0 && 0 <= w.column < 12 then
              StepB2Volume(w.column)
            else 0.0
  {
    if plates != [] {
      var init := plates[..|plates| - 1];
      var p := plates[|plates| - 1];
      DistinctInit(plates);
      TransfersDelivered(init, rate, w);
      DeliveredAppend(TransfersFor(init, rate), PlateTransfers(p, rate), w);
      PlateTransfersDelivered(p, rate, w);
      InInit(plates, w.labware.index);
    }
  }

  /** Row A of every column 0-11 of a plate gets 100 uL from steps B1 and B2 together. */
  lemma ColumnTotal(column: int)
    requires 0 <= column < 12
    ensures ReagentVolume(column) + StepB2Volume(column) == 100.0
  {
  }

  /** Assuming `distribute` delivers its volume to every target, row A of
      every column of every destination plate in use ends with 100 uL, and
      no other destination well receives anything. */
  lemma DestinationTotals(replicates: nat, rate: real, w: Well)
    requires w.labware.DestPlate?
    ensures Delivered(MultiPlan(replicates, rate), w) ==
            if w.labware.index < replicates && w.row == 0 && 0 <= w.column < 12 then 100.0 else 0.0
  {
    var plates := Upto(replicates);
    var source := PbsPlan() + APlan(rate);
    var mine := w.labware.index < replicates && w.row == 0;
    assert Delivered(source, w) == 0.0 by {
      PbsPlanDelivered(w);
      APlanViews(rate, w);
      DeliveredAppend(PbsPlan(), APlan(rate), w);
    }
    assert Delivered(ReagentsFor(plates), w) == if mine then ReagentVolume(w.column) else 0.0 by {
      UptoMembers(replicates, w.labware.index);
      ReagentsDelivered(plates, w);
    }
    assert Delivered(TransfersFor(plates, rate), w) == if mine && 0 <= w.column < 12 then StepB2Volume(w.column) else 0.0 by {
      UptoMembers(replicates, w.labware.index);
      TransfersDelivered(plates, rate, w);
    }
    DeliveredAppend(source, ReagentsFor(plates), w);
    DeliveredAppend(source + ReagentsFor(plates), TransfersFor(plates, rate), w);
    if mine && 0 <= w.column < 12 {
      ColumnTotal(w.column);
    }
  }

  // ---------------------------------------------------------------------------
  // The protocol as it drives the two pipettes.

  /** `move_liquid`: the pipette holds a tip and nothing else; the mix, when
      there is one, must fit on top of what the dispense left in the tip. */
  method MoveLiquidOn(p: Pipette, aspVol: real, dispVol: real, from: Well, to: Well, rate: real, mixVol: real, mixReps: int)
    requires p.Valid() && p.hasTip && p.held == 0.0
    requires 0.0 <= dispVol <= aspVol <= p.capacity
    requires mixReps > 0 ==> 0.0 <= MixVolumeOf(mixVol, dispVol) && aspVol - dispVol + MixVolumeOf(mixVol, dispVol) <= p.capacity
    modifies p
    ensures p.Valid() && p.hasTip && p.held == 0.0
    ensures p.trace == old(p.trace) + MoveLiquid(aspVol, dispVol, from, to, rate, mixVol, mixReps)
  {
    p.Aspirate(aspVol, from, rate);
    p.Dispense(dispVol, to, rate);
    if mixReps > 0 {
      var volumeToMix := if mixVol != 0.0 then mixVol else dispVol;
      p.Mix(mixReps, volumeToMix, to);
    }
    p.BlowOut(to);
  }

  /** One pass of the `distribute_pbs` loop, as draw `k`: the source well is
      looked up before the counter is checked, and again after a rotation. */
  method PbsDraw(p: Pipette, k: nat, column: int, currentResIdx: nat, currentVolTracker: int)
    returns (nextResIdx: nat, nextVolTracker: int)
    requires k < 20 && ResourceTracker.Tracker(currentResIdx, currentVolTracker) == ResourceTracker.AfterDraws(k)
    requires p.Valid() && p.hasTip && p.held == 0.0 && p.capacity >= AspVol
    modifies p
    ensures ResourceTracker.Tracker(nextResIdx, nextVolTracker) == ResourceTracker.AfterDraws(k + 1)
    ensures p.Valid() && p.hasTip && p.held == 0.0
    ensures p.trace == old(p.trace) + PbsTransfer(k, column)
  {
    var dest := Src(column, 0);
    ResourceTracker.DrawIndex(k);
    nextResIdx, nextVolTracker := currentResIdx, currentVolTracker;
    var sourceWell := Res(PbsPool[nextResIdx]);
    if nextVolTracker > ResourceTracker.Limit {
      nextResIdx := nextResIdx + 1;
      nextVolTracker := 0;
      sourceWell := Res(PbsPool[nextResIdx]);
    }
    PbsSourceTracked(k);
    MoveLiquidOn(p, AspVol, DispVol, sourceWell, dest, DefaultRate, MixVol, 0);
    nextVolTracker := nextVolTracker + ResourceTracker.DrawVolume;
  }

  /** `distribute_pbs`: one tip, the ten diluent columns, the counter starting at pool position 0. */
  method DistributePbs(p: Pipette)
    requires p.Valid() && !p.hasTip && p.capacity >= AspVol
    modifies p
    ensures p.Valid() && !p.hasTip
    ensures p.trace == old(p.trace) + PbsPlan()
  {
    p.PickUpTip();
    PbsLoop(p, DiluentColumns);
    p.DropTip();
  }

  /** The loop of `distribute_pbs` over `targets`, the counters starting at
      pool position 0 and volume 0. */
  method PbsLoop(p: Pipette, targets: seq<int>)
    requires |targets| <= 20
    requires p.Valid() && p.hasTip && p.held == 0.0 && p.capacity >= AspVol
    modifies p
    ensures p.Valid() && p.hasTip && p.held == 0.0
    ensures p.trace == old(p.trace) + PbsTransfers(targets)
  {
    var currentResIdx: nat := 0;
    var currentVolTracker := 0;
    for i := 0 to |targets|
      invariant p.Valid() && p.hasTip && p.held == 0.0
      invariant ResourceTracker.Tracker(currentResIdx, currentVolTracker) == ResourceTracker.AfterDraws(i)
      invariant p.trace == old(p.trace) + PbsTransfers(targets[..i])
    {
      currentResIdx, currentVolTracker := PbsDraw(p, i, targets[i], currentResIdx, currentVolTracker);
      assert targets[..i + 1][..i] == targets[..i];
      AppendAssoc(old(p.trace), PbsTransfers(targets[..i]), PbsTransfer(i, targets[i]));
    }
    assert targets[..|targets|] == targets;
  }

  /** `perform_serial_dilution`, under the tip the pipette holds. */
  method SerialDilutionOn(p: Pipette, wells: seq<Well>, rate: real, mixReps: int, mixVol: real)
    requires p.Valid() && p.hasTip && p.held == 0.0 && p.capacity >= AspVol
    requires mixReps > 0 ==> 0.0 <= MixVolumeOf(mixVol, DispVol) <= p.capacity
    modifies p
    ensures p.Valid() && p.hasTip && p.held == 0.0
    ensures p.trace == old(p.trace) + SerialDilution(wells, rate, mixReps, mixVol)
  {
    if |wells| > 0 {
      for i := 0 to |wells| - 1
        invariant p.Valid() && p.hasTip && p.held == 0.0
        invariant p.trace == old(p.trace) + SerialDilution(wells[..i + 1], rate, mixReps, mixVol)
      {
        MoveLiquidOn(p, AspVol, DispVol, wells[i], wells[i + 1], rate, mixVol, mixReps);
        assert wells[..i + 2][..i + 1] == wells[..i + 1];
        AppendAssoc(old(p.trace), SerialDilution(wells[..i + 1], rate, mixReps, mixVol), MoveLiquid(AspVol, DispVol, wells[i], wells[i + 1], rate, mixVol, mixReps));
      }
      assert wells[..|wells|] == wells;
    }
  }

  /** Steps A3 and A4 on one path: a fresh tip, the inducer into the first
      well, the dilution along the path, and the discard from its last well. */
  method ChainOn(p: Pipette, res: Well, path: seq<Well>, rate: real, serialMix: real)
    requires |path| > 0
    requires p.Valid() && !p.hasTip && p.capacity >= MixVol && 0.0 <= serialMix <= p.capacity
    modifies p
    ensures p.Valid() && !p.hasTip
    ensures p.trace == old(p.trace) + Chain(res, path, rate, serialMix)
  {
    ghost var start := p.trace;
    p.PickUpTip();
    MoveLiquidOn(p, AspVol, DispVol, res, path[0], rate, MixVol, 3);
    ghost var first := MoveLiquid(AspVol, DispVol, res, path[0], rate, MixVol, 3);
    SerialDilutionOn(p, path, rate, 3, serialMix);
    ghost var serial := SerialDilution(path, rate, 3, serialMix);
    p.Aspirate(AspVol, path[|path| - 1], DefaultRate);
    p.DropTip();
    AppendAssoc(start, [PickUpTip], first);
    AppendAssoc(start, [PickUpTip] + first, serial);
    AppendAssoc(start, [PickUpTip] + first + serial, [Aspirate(AspVol, path[|path| - 1], DefaultRate), DropTip]);
  }

  /** Step A3 on the multi-channel pipette. */
  method InducerADilution(p: Pipette, rate: real)
    requires p.Valid() && !p.hasTip && p.capacity >= MixVol
    modifies p
    ensures p.Valid() && !p.hasTip
    ensures p.trace == old(p.trace) + APlan(rate)
  {
    ColumnsDownShape(7, 8);
    ChainOn(p, Res(1), ColumnsDown(7, 8), rate, 0.0);
  }

  /** Step A4 on the single-channel pipette: one chain per column of `source_plate.columns()[-replicates:]`. */
  method InducerBDilutions(p: Pipette, replicates: nat, rate: real)
    requires 1 <= replicates <= 12
    requires p.Valid() && !p.hasTip && p.capacity >= MixVol
    modifies p
    ensures p.Valid() && !p.hasTip
    ensures p.trace == old(p.trace) + BPlan(replicates, rate)
  {
    var targetColumns := BColumns(replicates);
    BChainsOn(p, targetColumns, rate);
  }

  /** The loop of step A4 over the given source columns. */
  method BChainsOn(p: Pipette, columns: seq<int>, rate: real)
    requires p.Valid() && !p.hasTip && p.capacity >= MixVol
    modifies p
    ensures p.Valid() && !p.hasTip
    ensures p.trace == old(p.trace) + BChains(columns, rate)
  {
    for i := 0 to |columns|
      invariant p.Valid() && !p.hasTip
      invariant p.trace == old(p.trace) + BChains(columns[..i], rate)
    {
      BChainOn(p, columns[i], rate);
      assert columns[..i + 1][..i] == columns[..i];
      AppendAssoc(old(p.trace), BChains(columns[..i], rate), BChain(columns[i], rate));
    }
    assert columns[..|columns|] == columns;
  }

  /** Step A4 on one source column. */
  method BChainOn(p: Pipette, column: int, rate: real)
    requires p.Valid() && !p.hasTip && p.capacity >= MixVol
    modifies p
    ensures p.Valid() && !p.hasTip
    ensures p.trace == old(p.trace) + BChain(column, rate)
  {
    RowsDownShape(column, 7, 8);
    ChainOn(p, Res(2), RowsDown(column, 7, 8), rate, MixVol);
  }

  /** Step B1 on one plate. */
  method ReagentsOnPlate(p: Pipette, plate: nat)
    requires p.Valid() && !p.hasTip
    modifies p
    ensures p.Valid() && !p.hasTip
    ensures p.trace == old(p.trace) + Reagents(plate)
  {
    p.Distribute(ReagentVol, Res(1), [Dst(plate, 0)], Once);
    p.Distribute(ReagentVol, Res(1), [Dst(plate, 1), Dst(plate, 3)], Once);
    p.Distribute(ReagentVol, Res(2), [Dst(plate, 2), Dst(plate, 3)], Once);
  }

  /** Step B1: the three `distribute` calls on each destination plate. */
  method ReagentsOn(p: Pipette, replicates: nat)
    requires p.Valid() && !p.hasTip
    modifies p
    ensures p.Valid() && !p.hasTip
    ensures p.trace == old(p.trace) + ReagentsFor(Upto(replicates))
  {
    for i := 0 to replicates
      invariant p.Valid() && !p.hasTip
      invariant p.trace == old(p.trace) + ReagentsFor(Upto(i))
    {
      ReagentsOnPlate(p, i);
      assert Upto(i + 1)[..i] == Upto(i);
      AppendAssoc(old(p.trace), ReagentsFor(Upto(i)), Reagents(i));
    }
  }

  /** Gradient A onto one plate, under one tip. */
  method GradientAOn(p: Pipette, plate: nat, rate: real)
    requires p.Valid() && !p.hasTip && p.capacity >= GradientVol
    modifies p
    ensures p.Valid() && !p.hasTip
    ensures p.trace == old(p.trace) + [PickUpTip] + GradientSteps(plate, Upto(8), rate) + [DropTip]
  {
    p.PickUpTip();
    for offset := 0 to 8
      invariant p.Valid() && p.hasTip && p.held == 0.0
      invariant p.trace == old(p.trace) + [PickUpTip] + GradientSteps(plate, Upto(offset), rate)
    {
      MoveLiquidOn(p, GradientVol, GradientVol, Src(7 - offset, 0), Dst(plate, 11 - offset), rate, 10.0, 1);
      assert Upto(offset + 1)[..offset] == Upto(offset);
      AppendAssoc(old(p.trace) + [PickUpTip], GradientSteps(plate, Upto(offset), rate), GradientStep(plate, offset, rate));
    }
    p.DropTip();
  }

  /** Cells into one well under a fresh tip. */
  method CellOn(p: Pipette, plate: nat, column: int, volume: real)
    requires volume == CellVolume(column)
    requires p.Valid() && !p.hasTip && p.capacity >= volume && p.capacity >= CellMixVol
    modifies p
    ensures p.Valid() && !p.hasTip
    ensures p.trace == old(p.trace) + CellStep(plate, column)
  {
    p.PickUpTip();
    MoveLiquidOn(p, volume, volume, Res(3), Dst(plate, column), DefaultRate, CellMixVol, 3);
    p.DropTip();
    AppendAssoc(old(p.trace), [PickUpTip], MoveLiquid(volume, volume, Res(3), Dst(plate, column), DefaultRate, CellMixVol, 3));
  }

  /** The cells of one plate: 70 uL into `wells_70`, then 40 uL into `wells_40`. */
  method CellsOn(p: Pipette, plate: nat)
    requires p.Valid() && !p.hasTip && p.capacity >= CellHigh
    modifies p
    ensures p.Valid() && !p.hasTip
    ensures p.trace == old(p.trace) + CellSteps(plate, Upto(12))
  {
    for c := 0 to 3
      invariant p.Valid() && !p.hasTip
      invariant p.trace == old(p.trace) + CellSteps(plate, Upto(c))
    {
      CellOn(p, plate, c, CellHigh);
      assert Upto(c + 1)[..c] == Upto(c);
      AppendAssoc(old(p.trace), CellSteps(plate, Upto(c)), CellStep(plate, c));
    }
    for c := 3 to 12
      invariant p.Valid() && !p.hasTip
      invariant p.trace == old(p.trace) + CellSteps(plate, Upto(c))
    {
      CellOn(p, plate, c, CellLow);
      assert Upto(c + 1)[..c] == Upto(c);
      AppendAssoc(old(p.trace), CellSteps(plate, Upto(c)), CellStep(plate, c));
    }
  }

  /** Step B2 on one plate: gradient A, gradient B, the cells. */
  method PlateTransfersOn(p: Pipette, plate: nat, rate: real)
    requires p.Valid() && !p.hasTip && p.capacity >= CellHigh
    modifies p
    ensures p.Valid() && !p.hasTip
    ensures p.trace == old(p.trace) + PlateTransfers(plate, rate)
  {
    ghost var start := p.trace;
    GradientAOn(p, plate, rate);
    ghost var grad := [PickUpTip] + GradientSteps(plate, Upto(8), rate) + [DropTip];
    p.Distribute(ReagentVol, Src(9 + plate, 0), DestColumnsDown(plate, 11, 8), Always);
    CellsOn(p, plate);
    AppendAssoc(start, grad, [GradientB(plate)]);
    AppendAssoc(start, grad + [GradientB(plate)], CellSteps(plate, Upto(12)));
  }

  /** Step B2 on every destination plate, in order. */
  method TransfersOn(p: Pipette, replicates: nat, rate: real)
    requires p.Valid() && !p.hasTip && p.capacity >= CellHigh
    modifies p
    ensures p.Valid() && !p.hasTip
    ensures p.trace == old(p.trace) + TransfersFor(Upto(replicates), rate)
  {
    for i := 0 to replicates
      invariant p.Valid() && !p.hasTip
      invariant p.trace == old(p.trace) + TransfersFor(Upto(i), rate)
    {
      PlateTransfersOn(p, i, rate);
      assert Upto(i + 1)[..i] == Upto(i);
      AppendAssoc(old(p.trace), TransfersFor(Upto(i), rate), PlateTransfers(i, rate));
    }
  }

  /** `run`, after the parameter check: every command each pipette receives,
      and every one of them is one the robot accepts. */
  method Run(multi: Pipette, single: Pipette, replicates: nat, viscous: bool)
    requires multi != single
    requires 1 <= replicates <= 3
    requires multi.Valid() && !multi.hasTip && multi.capacity >= AspVol
    requires single.Valid() && !single.hasTip && single.capacity >= AspVol
    modifies multi, single
    ensures multi.trace == old(multi.trace) + MultiPlan(replicates, RateMultiplier(viscous))
    ensures single.trace == old(single.trace) + SinglePlan(replicates, RateMultiplier(viscous))
    ensures multi.Valid() && !multi.hasTip && Feasible(multi.trace, multi.capacity)
    ensures single.Valid() && !single.hasTip && Feasible(single.trace, single.capacity)
  {
    var rate := RateMultiplier(viscous);
    ghost var start := multi.trace;
    DistributePbs(multi);
    InducerADilution(multi, rate);
    InducerBDilutions(single, replicates, rate);
    ReagentsOn(multi, replicates);
    TransfersOn(multi, replicates, rate);
    AppendAssoc(start, PbsPlan(), APlan(rate));
    AppendAssoc(start, PbsPlan() + APlan(rate), ReagentsFor(Upto(replicates)));
    AppendAssoc(start, PbsPlan() + APlan(rate) + ReagentsFor(Upto(replicates)), TransfersFor(Upto(replicates), rate));
  }
}
