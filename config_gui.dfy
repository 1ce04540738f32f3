/**
 * The configuration editor of the dose-response protocol: its defaults and
 * the configuration record it exports. The widgets are not modelled; the
 * values they hold when a button is pressed are parameters.
 */
module ConfigGui {
  import opened Outcomes
  import opened Dilution

  /** The editor's input fields. */
  datatype Settings = Settings(
    stockName: string, stockConc: real, diluentName: string, totalVol: real,
    replicates: int, viscous: bool, aspRate: real, dispRate: real, blowoutRate: real)

  /** The exported configuration document. */
  datatype ConfigExport = ConfigExport(
    stockName: string, stockConc: real, diluentName: string, totalVol: real,
    replicates: int, viscous: bool, aspRate: real, dispRate: real, blowoutRate: real,
    wells: seq<WellData>, arrays: Columns)

  const DefaultStockConc: real := 15.0
  const DefaultTotalVol: real := 100.0
  const DefaultTargets: seq<real> := [0.0, 2.0, 4.0, 6.0, 8.0, 10.0, 12.0, 14.0]

  /** Export is refused while there is no calculated table; otherwise the document
      carries the current fields, the rows, and one array per row field. */
  function GenerateJson(s: Settings, data: seq<WellData>): (r: Option<ConfigExport>)
    ensures r.None? <==> data == []
    ensures r.Some? ==> |r.value.arrays.finalConc| == |r.value.arrays.stockVol| == |r.value.arrays.diluentVol| == |data|
    ensures r.Some? ==> r.value.wells == data && Zip(r.value.arrays) == data
    ensures r.Some? ==> r.value.stockName == s.stockName && r.value.diluentName == s.diluentName
    ensures r.Some? ==> r.value.stockConc == s.stockConc && r.value.totalVol == s.totalVol
                        && r.value.replicates == s.replicates && r.value.viscous == s.viscous
    ensures r.Some? ==> r.value.aspRate == s.aspRate && r.value.dispRate == s.dispRate
                        && r.value.blowoutRate == s.blowoutRate
  {
    if data == [] then None
    else
      ZipUnzip(data);
      Some(ConfigExport(s.stockName, s.stockConc, s.diluentName, s.totalVol, s.replicates, s.viscous,
                        s.aspRate, s.dispRate, s.blowoutRate, data, Unzip(data)))
  }

  /** The defaults give eight rows; the row for target 10 uses 200/3 uL of stock and
      100/3 uL of diluent, and no row is warned about. */
  lemma DefaultTable()
    ensures var rows := Dilutions(DefaultStockConc, DefaultTotalVol, DefaultTargets);
      && |rows| == 8
      && rows[5] == WellData(10.0, 200.0 / 3.0, 100.0 / 3.0)
      && Warnings(rows, DefaultTotalVol) == []
  {
    var rows := Dilutions(DefaultStockConc, DefaultTotalVol, DefaultTargets);
    NoWarnings(rows, DefaultTotalVol);
  }
}
