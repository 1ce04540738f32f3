/**
 * The second configuration editor: the same calculator, other defaults, and
 * an export record that names a labware directory instead of the viscosity
 * flag and the flow rates.
 */
module MainApp {
  import opened Outcomes
  import opened Dilution

  datatype Settings = Settings(
    stockName: string, stockConc: real, diluentName: string, totalVol: real,
    replicates: int, labwareDirectory: string)

  datatype MainExport = MainExport(
    stock: string, stockConc: real, diluent: string, totalVol: real,
    replicates: int, labwareDirectory: string, wells: seq<WellData>, arrays: Columns)

  const DefaultStockConc: real := 10.0
  const DefaultTotalVol: real := 100.0
  const DefaultTargets: seq<real> := [0.0, 5.0, 10.0, 50.0, 100.0]

  /** Export is refused while there is no calculated table; otherwise the record
      carries the current fields, the rows, and one array per row field. */
  function GenerateJson(s: Settings, data: seq<WellData>): (r: Option<MainExport>)
    ensures r.None? <==> data == []
    ensures r.Some? ==> |r.value.arrays.finalConc| == |r.value.arrays.stockVol| == |r.value.arrays.diluentVol| == |data|
    ensures r.Some? ==> r.value.wells == data && Zip(r.value.arrays) == data
    ensures r.Some? ==> r.value.stock == s.stockName && r.value.diluent == s.diluentName
    ensures r.Some? ==> r.value.stockConc == s.stockConc && r.value.totalVol == s.totalVol
                        && r.value.replicates == s.replicates
                        && r.value.labwareDirectory == s.labwareDirectory
  {
    if data == [] then None
    else
      ZipUnzip(data);
      Some(MainExport(s.stockName, s.stockConc, s.diluentName, s.totalVol, s.replicates,
                      s.labwareDirectory, data, Unzip(data)))
  }

  /** The defaults give stock volumes 0, 50, 100, 500, 1000 and diluent volumes
      100, 50, 0, -400, -900; only the rows for 50 and 100 uM are warned about. */
  lemma DefaultTable()
    ensures var rows := Dilutions(DefaultStockConc, DefaultTotalVol, DefaultTargets);
      && rows == [WellData(0.0, 0.0, 100.0), WellData(5.0, 50.0, 50.0), WellData(10.0, 100.0, 0.0),
                  WellData(50.0, 500.0, -400.0), WellData(100.0, 1000.0, -900.0)]
      && Warnings(rows, DefaultTotalVol) == [3, 4]
  {
    var w0, w1, w2 := WellData(0.0, 0.0, 100.0), WellData(5.0, 50.0, 50.0), WellData(10.0, 100.0, 0.0);
    var w3, w4 := WellData(50.0, 500.0, -400.0), WellData(100.0, 1000.0, -900.0);
    assert Dilutions(DefaultStockConc, DefaultTotalVol, DefaultTargets) == [w0, w1, w2, w3, w4];
    DefaultWarnings(w0, w1, w2, w3, w4);
  }

  lemma DefaultWarnings(w0: WellData, w1: WellData, w2: WellData, w3: WellData, w4: WellData)
    requires w0.stockVol <= 100.0 && w1.stockVol <= 100.0 && w2.stockVol <= 100.0
    requires w3.stockVol > 100.0 && w4.stockVol > 100.0
    ensures Warnings([w0, w1, w2, w3, w4], 100.0) == [3, 4]
  {
    var a := [w0, w1, w2];
    var b := a + [w3];
    assert Warnings(a, 100.0) == [] by {
      NoWarnings(a, 100.0);
    }
    assert Warnings(b, 100.0) == [3] by {
      WarningsSnoc(a, w3, 100.0);
    }
    assert Warnings(b + [w4], 100.0) == [3, 4] by {
      WarningsSnoc(b, w4, 100.0);
    }
    assert b + [w4] == [w0, w1, w2, w3, w4];
  }
}
