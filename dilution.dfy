/**
 * The dilution calculator shared by the configuration editors: C1V1 = C2V2
 * applied to every target concentration. Volumes are exact reals; nothing is
 * clamped, so a target above the stock concentration gives a negative
 * diluent volume.
 */
module Dilution {
  import opened Outcomes

  /** One row of the dilution table (concentrations in uM, volumes in uL). */
  datatype WellData = WellData(finalConc: real, stockVol: real, diluentVol: real)

  /** The row for one target: the stock volume that carries the target
      concentration into the total volume, and the diluent that makes up the rest. */
  function Row(stockConc: real, totalVol: real, target: real): (w: WellData)
    ensures w.finalConc == target
    ensures w.stockVol + w.diluentVol == totalVol
    ensures stockConc == 0.0 ==> w.stockVol == 0.0 && w.diluentVol == totalVol
    ensures stockConc != 0.0 ==> w.stockVol * stockConc == target * totalVol
  {
    var stockVol := if stockConc == 0.0 then 0.0 else (target * totalVol) / stockConc;
    WellData(target, stockVol, totalVol - stockVol)
  }

  /** The table for a list of targets. */
  function Dilutions(stockConc: real, totalVol: real, targets: seq<real>): (rows: seq<WellData>)
    ensures |rows| == |targets|
    ensures forall i :: 0 <= i < |targets| ==> rows[i] == Row(stockConc, totalVol, targets[i])
    decreases |targets|
  {
    if targets == [] then []
    else Dilutions(stockConc, totalVol, targets[..|targets| - 1]) + [Row(stockConc, totalVol, targets[|targets| - 1])]
  }

  /** The calculator as written: one row appended per target, in input order. */
  method CalculateDilutions(stockConc: real, totalVol: real, targets: seq<real>) returns (results: seq<WellData>)
    ensures |results| == |targets|
    ensures forall i :: 0 <= i < |targets| ==> results[i].finalConc == targets[i]
    ensures forall i :: 0 <= i < |targets| ==> results[i].stockVol + results[i].diluentVol == totalVol
    ensures results == Dilutions(stockConc, totalVol, targets)
  {
    results := [];
    for k := 0 to |targets|
      invariant results == Dilutions(stockConc, totalVol, targets[..k])
    {
      var target := targets[k];
      var stockVol: real;
      if stockConc == 0.0 {
        stockVol := 0.0;
      } else {
        stockVol := (target * totalVol) / stockConc;
      }
      var diluentVol := totalVol - stockVol;
      assert WellData(target, stockVol, diluentVol) == Row(stockConc, totalVol, target);
      assert targets[..k + 1][..k] == targets[..k];
      results := results + [WellData(target, stockVol, diluentVol)];
    }
    assert targets[..|targets|] == targets;
  }

  /** With a positive stock and total volume, the diluent volume is negative exactly
      when the target exceeds the stock concentration, which is also exactly when the
      stock volume exceeds the total volume. */
  lemma NegativeDiluentIff(stockConc: real, totalVol: real, target: real)
    requires stockConc > 0.0 && totalVol > 0.0
    ensures Row(stockConc, totalVol, target).diluentVol < 0.0 <==> target > stockConc
    ensures Row(stockConc, totalVol, target).stockVol > totalVol <==> target > stockConc
  {
    var w := Row(stockConc, totalVol, target);
    assert w.stockVol * stockConc == target * totalVol;
    if target > stockConc {
      assert target * totalVol > stockConc * totalVol;
      assert w.stockVol * stockConc > totalVol * stockConc;
    } else {
      assert target * totalVol <= stockConc * totalVol;
      assert w.stockVol * stockConc <= totalVol * stockConc;
    }
  }

  // ---------------------------------------------------------------------------
  // Orchestration around the calculator.

  datatype CalcError = NonPositiveStock

  /** Calculation is refused for a stock concentration that is not positive;
      otherwise the table is computed. */
  function RunCalculation(stockConc: real, totalVol: real, targets: seq<real>): (r: Result<seq<WellData>, CalcError>)
    ensures r.Err? <==> stockConc <= 0.0
    ensures r.Ok? ==> r.value == Dilutions(stockConc, totalVol, targets)
  {
    if stockConc <= 0.0 then Err(NonPositiveStock) else Ok(Dilutions(stockConc, totalVol, targets))
  }

  /** Behind the refusal the zero-stock branch of the calculator is never taken:
      every accepted row obeys C1V1 = C2V2. */
  lemma AcceptedRowsObeyC1V1(stockConc: real, totalVol: real, targets: seq<real>)
    requires RunCalculation(stockConc, totalVol, targets).Ok?
    ensures forall i :: 0 <= i < |targets| ==>
      var w := RunCalculation(stockConc, totalVol, targets).value[i];
      w.stockVol * stockConc == targets[i] * totalVol && w.stockVol + w.diluentVol == totalVol
  {
  }

  /** The rows warned about when the table is shown: those whose stock volume exceeds
      the total volume currently entered, in row order. */
  function Warnings(rows: seq<WellData>, totalVol: real): (w: seq<nat>)
    ensures forall i: nat :: i in w <==> i < |rows| && rows[i].stockVol > totalVol
    ensures forall j, k :: 0 <= j < k < |w| ==> w[j] < w[k]
    ensures forall j :: 0 <= j < |w| ==> w[j] < |rows|
    decreases |rows|
  {
    if rows == [] then []
    else
      var n := |rows| - 1;
      Warnings(rows[..n], totalVol) + (if rows[n].stockVol > totalVol then [n] else [])
  }

  /** Appending a row appends its index to the warnings exactly when it is warned about. */
  lemma WarningsSnoc(rows: seq<WellData>, w: WellData, totalVol: real)
    ensures Warnings(rows + [w], totalVol) ==
            Warnings(rows, totalVol) + (if w.stockVol > totalVol then [|rows|] else [])
  {
    assert (rows + [w])[..|rows|] == rows;
  }

  /** A table none of whose rows needs more stock than the total volume draws no warning. */
  lemma {:induction false} NoWarnings(rows: seq<WellData>, totalVol: real)
    requires forall i :: 0 <= i < |rows| ==> rows[i].stockVol <= totalVol
    ensures Warnings(rows, totalVol) == []
    decreases |rows|
  {
    if rows != [] {
      NoWarnings(rows[..|rows| - 1], totalVol);
    }
  }

  /** For a calculated table, a row is warned about exactly when its target is above
      the stock concentration. */
  lemma WarnedIffAboveStock(stockConc: real, totalVol: real, targets: seq<real>, i: nat)
    requires stockConc > 0.0 && totalVol > 0.0 && i < |targets|
    ensures i in Warnings(Dilutions(stockConc, totalVol, targets), totalVol) <==> targets[i] > stockConc
  {
    NegativeDiluentIff(stockConc, totalVol, targets[i]);
  }

  // ---------------------------------------------------------------------------
  // The per-field arrays of the exported configuration.

  datatype Columns = Columns(finalConc: seq<real>, stockVol: seq<real>, diluentVol: seq<real>)

  /** The table split into one array per field. */
  function Unzip(rows: seq<WellData>): (c: Columns)
    ensures |c.finalConc| == |c.stockVol| == |c.diluentVol| == |rows|
    decreases |rows|
  {
    if rows == [] then Columns([], [], [])
    else
      var c := Unzip(rows[..|rows| - 1]);
      var w := rows[|rows| - 1];
      Columns(c.finalConc + [w.finalConc], c.stockVol + [w.stockVol], c.diluentVol + [w.diluentVol])
  }

  /** The table rebuilt from its arrays. */
  function Zip(c: Columns): (rows: seq<WellData>)
    requires |c.finalConc| == |c.stockVol| == |c.diluentVol|
    ensures |rows| == |c.finalConc|
  {
    seq(|c.finalConc|, i requires 0 <= i < |c.finalConc| => WellData(c.finalConc[i], c.stockVol[i], c.diluentVol[i]))
  }

  /** The arrays are element-wise projections of the rows: together they give the table back. */
  lemma {:induction false} ZipUnzip(rows: seq<WellData>)
    ensures Zip(Unzip(rows)) == rows
    decreases |rows|
  {
    if rows != [] {
      ZipUnzip(rows[..|rows| - 1]);
      var z := Zip(Unzip(rows));
      forall i | 0 <= i < |rows| ensures z[i] == rows[i] {
        if i < |rows| - 1 {
          assert Zip(Unzip(rows[..|rows| - 1]))[i] == rows[..|rows| - 1][i];
        }
      }
    }
  }

  /** Element-wise reading of the arrays. */
  lemma UnzipAt(rows: seq<WellData>, i: nat)
    requires i < |rows|
    ensures Unzip(rows).finalConc[i] == rows[i].finalConc
    ensures Unzip(rows).stockVol[i] == rows[i].stockVol
    ensures Unzip(rows).diluentVol[i] == rows[i].diluentVol
  {
    ZipUnzip(rows);
    assert Zip(Unzip(rows))[i] == rows[i];
  }
}
