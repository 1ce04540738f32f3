# Dual-inducer assay on an Opentrons robot: a Dafny model

The repository automates a dual-inducer dose-response assay on an Opentrons
OT-2 liquid-handling robot. It has two parts:

- **Configuration editors** (`config_gui.py`, `main.py`). These compute a
  dilution table with C1V1 = C2V2, warn about rows that are not feasible, and
  export the table as a configuration document.
- **Protocol scripts.** Each script issues a fixed sequence of pipette
  commands: pick up a tip, aspirate, dispense, mix, blow out, drop the tip,
  distribute.
  - `dual_inducer_assay.py`, `final_v3.py` and `source_2_replicates_agnes.py`
    fill the source plate with diluent. They then make an inducer-A serial
    dilution along row A and inducer-B serial dilutions down single columns.
  - `dual_inducer_assay.py`, `final_v3.py` and `dest_v5_lihao.py` set up the
    destination plates: reagents, the two gradients, and cells.
  - `gradient_agnes_v1.py` turns the calculated volume lists into a one-row
    gradient plate.

The model has these parts:

- **`Pipetting`.** Commands are addressed to (labware, column, row) wells.
  - `Step`/`Exec` is a pure simulator of the tip state: whether a tip is on,
    and the volume it holds. It refuses what the robot refuses: a second tip,
    a liquid command without a tip, a dispense of more than is held, an
    aspirate or mix beyond the tip's capacity, and a `distribute` while a tip
    is on.
  - `Feasible` says a command list is accepted from start to end and finishes
    without a tip.
  - A `Pipette` class records the commands issued to it in `trace`. Each
    method demands of its caller what the robot checks at run time.
  - Three views of a plan are used to state what a script does:
    - `Sources`: the wells aspirated from, in order;
    - `Targets`: the wells dispensed into, in order;
    - `Delivered`: the net volume each well gains or loses.
- **`ResourceTracker`.** The diluent-reservoir rotation counter that
  `distribute_pbs` and `final_v3.py` keep. The counter checks `> 1200` before
  each 300 µL draw.
- **`Dilution`**, **`ConfigGui`** and **`MainApp`.** The calculator shared by
  both editors. The refusal of a stock concentration that is not positive,
  the per-row warning and the export record.
- **`DualInducer`**, **`FinalV3`**, **`DestV5`**, **`SourceAgnes`** and
  **`GradientAgnes`.** One module per script.
  - Each phase of a script is a method whose `ensures` state the commands it
    adds to a pipette's trace, as a plan function of the script's
    parameters.
  - Lemmas about those plan functions state what reaches each well.
  - Each script's `Run`/`Protocol` method also proves that every pipette's
    whole trace is `Feasible`.

Volumes and concentrations are mathematical reals. Configuration values the
scripts read from JSON files are parameters. Column and row numbers below are
0-based indices, as in `columns()[i]`; well names such as A6 are the robot's
own 1-based names.

### Behaviour of the code that the model keeps

- **Rotation timing.** The rotation counter checks *before* a draw whether
  more than 1200 µL has been taken. So the switch to the next reservoir
  column happens before the 6th draw, not the 5th. Each pool column serves
  five draws of 300 µL, 1500 µL in all (`ResourceTracker.DrawIndex`,
  `DualInducer.PbsPlanDelivered`).
- **dual_inducer_assay.py, PBS column.** The "PBS" column of each destination
  plate is filled from the inducer-A reservoir well `res_A_source`
  (dual_inducer_assay.py:202).
- **dual_inducer_assay.py, B sources.**
  - The inducer-B dilution runs on the last `REPLICATES` source columns.
  - Plate i draws its B gradient from column 9 + i.
  - All plates draw from diluted columns only when there are three
    replicates (`DualInducer.BSourcesDilutedIff`).
- **dual_inducer_assay.py, unreachable check.** The `REPLICATES > 3` check
  at dual_inducer_assay.py:192 cannot fire after `validate_parameters`.
- **final_v3.py, fixed replicate count.** The script fixes `replicates = 1`
  (final_v3.py:13). The model takes the replicate count as a parameter.
- **final_v3.py, B chain crash.**
  - The B chain of replicate r works on source column 11 + r. A second
    replicate looks up column index 12 of a 12-column plate and stops the run.
  - For that reason the `replicates > 3` check (final_v3.py:169) is never
    reached with more than one replicate (`FinalV3.Run`).
- **final_v3.py, B gradient source.** The B gradient of plate i is drawn from
  column 11 + (i - 1), while the comment beside it says 9, 10, 11. Column 11
  is the column the first B chain dilutes (`FinalV3.BSourceDiluted`).
- **final_v3.py, short B gradient.**
  - The B gradient reaches only destination columns 5 and 4.
  - So columns 6-11 of the plate end with 70 µL, not the 100 µL the other
    columns get (`FinalV3.DestinationTotals`).
- **dest_v5_lihao.py, plate count.** Only two plates are loaded, so three
  replicates fill two plates (`DestV5.PlateCountAccepted`).
- **gradient_agnes_v1.py, edge columns.** The last column never receives
  diluent and the first never receives stock (`GradientAgnes.Coverage`).

## Model

| member | source | states |
|---|---|---|
| Pipetting.FeasibleAppend | source_2_replicates_agnes.py:32-72 | two accepted command lists, run one after the other, are accepted, so a script's phases compose |
| Pipetting.FeasibleTipsAlternate | source_2_replicates_agnes.py:32-72 | in an accepted plan, pick-ups and drops alternate on every prefix (never two tips, never a drop without a tip) and every tip is dropped at the end |
| Pipetting.DiluentColumnsIncreasing | dual_inducer_assay.py:88 | the diluent columns `range(0, 8) + range(9, 11)` are strictly increasing, so no column is served twice |
| Pipetting.Upto | dual_inducer_assay.py:217 | `range(n)` has n elements |
| Pipetting.UptoMembers | dual_inducer_assay.py:217 | `range(n)` holds exactly 0..n-1, each once |
| Pipetting.UptoSuffix | dual_inducer_assay.py:177 | the columns from position a of `range(n)` are exactly a..n-1, each once (the slice `columns()[-replicates:]`) |
| Pipetting.ColumnsDownAt | dual_inducer_assay.py:168 | the path `[columns()[i][0] for i in range(7, -1, -1)]` lists row A of columns 7, 6, ... in that order |
| Pipetting.RowsDownAt | dual_inducer_assay.py:185 | the path `[col[i] for i in range(7, -1, -1)]` lists rows 7, 6, ... of one column in that order |
| Pipetting.RowsDownMembers | dual_inducer_assay.py:185 | a well is on a column's row path exactly when it is in that column between the path's ends |
| Pipetting.DiluentWellsMembers | source_2_replicates_agnes.py:33-36 | the wells the diluent loop fills are exactly row A of the diluent columns |
| Pipetting.DiluentWellsBefore | source_2_replicates_agnes.py:33-36 | a later diluent column is not among the wells already filled |
| Pipetting.Pipette.constructor | dual_inducer_assay.py:130-131 | a loaded pipette has the given capacity, no tip and no commands |
| Pipetting.Pipette.PickUpTip | dual_inducer_assay.py:94 | refused while a tip is on; records the command and leaves an empty tip on |
| Pipetting.Pipette.DropTip | dual_inducer_assay.py:108 | needs a tip; records the command and leaves the pipette without a tip |
| Pipetting.Pipette.Aspirate | dual_inducer_assay.py:78 | needs a tip and room for the volume; the held volume grows by it |
| Pipetting.Pipette.Dispense | dual_inducer_assay.py:79 | needs a tip holding at least the volume; the held volume shrinks by it |
| Pipetting.Pipette.Mix | dual_inducer_assay.py:83 | needs a tip and room for the mix volume; the held volume is unchanged |
| Pipetting.Pipette.BlowOut | dual_inducer_assay.py:84 | needs a tip; the tip is empty afterwards |
| Pipetting.Pipette.Distribute | dual_inducer_assay.py:202 | `distribute` handles its own tips, so it is refused while a tip is on; recorded as one command |
| ResourceTracker.AfterDrawsClosedForm | dual_inducer_assay.py:100-106 | after k draws the counter is at pool position (k-1)/5 with 300·((k-1) mod 5 + 1) µL drawn |
| ResourceTracker.DrawIndex | dual_inducer_assay.py:100-106 | draw k comes from pool position k/5: each pool column serves exactly five draws |
| ResourceTracker.DrawnBeforeDraw | dual_inducer_assay.py:101-104 | when a draw is made the tracked volume is 300·(k mod 5), at most 1200 µL |
| ResourceTracker.RotatesOncePerCrossing | dual_inducer_assay.py:101-103 | the pool position advances by one exactly before draws 5, 10, 15, ... and otherwise stays |
| ResourceTracker.FourColumnPoolSuffices | dual_inducer_assay.py:91-104 | with the four-column pool `[4, 5, 6, 7]`, the lookup stays inside the pool exactly for the first 20 draws |
| ResourceTracker.DrawsAtClosedForm | dual_inducer_assay.py:96-106 | of the first k draws, pool position j serves none before draw 5j, then one per draw, five at most |
| Dilution.Row | config_gui.py:31-44 | the row carries its target; stock + diluent equals the total; a zero stock gives stock 0 and diluent = total, otherwise stock·C1 = target·total |
| Dilution.Dilutions | config_gui.py:29-46 | one row per target, in input order, each the row of its target |
| Dilution.CalculateDilutions | config_gui.py:25-46 | the append loop returns one row per target in order, carrying the target, with stock + diluent = total, equal to the table `Dilutions` defines (main.py:25-46 is the same function) |
| Dilution.NegativeDiluentIff | config_gui.py:35-37 | nothing is clamped: with positive stock and total, the diluent is negative exactly when the target exceeds the stock concentration, which is exactly when the stock volume exceeds the total |
| Dilution.RunCalculation | config_gui.py:224-229 | calculation is refused exactly when the stock concentration is not positive; otherwise the table is the calculator's |
| Dilution.AcceptedRowsObeyC1V1 | config_gui.py:224-229 | behind the refusal the zero-stock branch never applies: every accepted row satisfies stock·C1 = target·total and stock + diluent = total |
| Dilution.Warnings | config_gui.py:248-251 | row i is warned about exactly when its stock volume exceeds the total volume; warnings come in row order |
| Dilution.WarningsSnoc | config_gui.py:248-251 | a new last row adds its index to the warnings exactly when it is warned about |
| Dilution.NoWarnings | config_gui.py:248-251 | a table none of whose rows needs more stock than the total draws no warning |
| Dilution.WarnedIffAboveStock | config_gui.py:248-251 | with positive stock and total, a calculated row is warned about exactly when its target exceeds the stock concentration |
| Dilution.Unzip | config_gui.py:286-288 | the three exported arrays have one entry per row |
| Dilution.Zip | config_gui.py:285-288 | rows rebuilt from three arrays of equal length number as many as the arrays |
| Dilution.ZipUnzip | config_gui.py:285-288 | the arrays are element-wise projections of `wells`: zipping them gives the table back |
| Dilution.UnzipAt | config_gui.py:286-288 | entry i of each array is the field of row i |
| ConfigGui.GenerateJson | config_gui.py:264-288 | export is refused exactly when there is no table; otherwise the document carries the stock name, stock concentration, diluent name, total volume, replicate count, viscosity flag and the aspirate, dispense and blow-out rates as entered, the rows as `wells`, and three arrays of the rows' length that zip back to the rows |
| ConfigGui.DefaultTable | config_gui.py:199-204 | the defaults (stock 15, total 100, targets 0..14 step 2) give eight rows, the row for 10 uses 200/3 µL stock and 100/3 µL diluent, and no row is warned about |
| MainApp.GenerateJson | main.py:254-273 | export is refused exactly when there is no table; otherwise the record carries the stock name, stock concentration, diluent name, total volume, replicate count and labware directory as entered, the rows as `wells`, and three arrays of the rows' length that zip back to the rows |
| MainApp.DefaultTable | main.py:192-194 | the defaults (stock 10, total 100, targets 0, 5, 10, 50, 100) give stock 0, 50, 100, 500, 1000 and diluent 100, 50, 0, -400, -900; only the rows for 50 and 100 are warned about |
| MainApp.DefaultWarnings | main.py:238-241 | five rows of which only the last two need more than 100 µL of stock warn about rows 3 and 4 |
| DualInducer.ValidateParameters | dual_inducer_assay.py:16-21 | the replicate check comes first and fails exactly for values not in [1, 2, 3]; the viscosity check fails exactly for a non-boolean flag once replicates pass; otherwise nothing is raised |
| DualInducer.AcceptedParameters | dual_inducer_assay.py:16-21 | the accepted inputs are listed: 1, 2, 3 as integers or floats, `True` (equal to 1), with a boolean flag |
| DualInducer.PlateLayout | dual_inducer_assay.py:55-68 | `PLATE_LAYOUT` has an entry exactly for 1, 2 and 3 replicates, with one plate slot per replicate |
| DualInducer.LayoutSlots | dual_inducer_assay.py:55-68 | the layouts have 2, 4 and 5 tip slots, all slots distinct and apart from the reservoir and source slots 5 and 6 |
| DualInducer.RateMultiplier | dual_inducer_assay.py:146-151 | the rate multiplier is 0.5 exactly when viscous and 1.0 exactly when not |
| DualInducer.MoveLiquidShape | dual_inducer_assay.py:74-84 | aspirate, dispense, a mix exactly when `mix_reps > 0` (of `mix_vol`, or the dispensed volume when that is 0), then the blow-out at the destination |
| DualInducer.MoveLiquidDelivered | dual_inducer_assay.py:78-79 | one `move_liquid` takes the aspirated volume from its source and puts the dispensed volume into its destination |
| DualInducer.MoveLiquidEnds | dual_inducer_assay.py:78-79 | one `move_liquid` aspirates once, at its source, and dispenses once, at its destination |
| DualInducer.MoveLiquidCases | dual_inducer_assay.py:78-84 | the three views of one `move_liquid` together |
| DualInducer.SerialDilutionSources | dual_inducer_assay.py:117-121 | on n wells the dilution aspirates n-1 times, from every well but the last, in order |
| DualInducer.SerialDilutionTargets | dual_inducer_assay.py:117-121 | on n wells the dilution dispenses n-1 times, into every well but the first, in order |
| DualInducer.SerialDilutionDelivered | dual_inducer_assay.py:117-121 | liquid only moves along the wells: the first gives 300 µL, the last gains 300 µL, the others end as they were |
| DualInducer.PbsSourceTracked | dual_inducer_assay.py:96-104 | the source of draw k is the pool column the rotating counter selects |
| DualInducer.PbsTransfersSources | dual_inducer_assay.py:96-106 | draw i of the diluent loop aspirates from reservoir column 4 + i/5 |
| DualInducer.PbsTransfersTargets | dual_inducer_assay.py:96-106 | the diluent goes into row A of each target column, in order, once each |
| DualInducer.PbsTransfersOnPlate | dual_inducer_assay.py:96-106 | on the source plate, row A of each column served gains 300 µL and every other well nothing |
| DualInducer.PbsTransfersFromReservoir | dual_inducer_assay.py:96-106 | each reservoir column gives 300 µL for each draw made from it and no other reservoir well gives anything |
| DualInducer.PbsTransfersElsewhere | dual_inducer_assay.py:96-106 | the diluent loop touches no destination plate |
| DualInducer.PbsPlanDelivered | dual_inducer_assay.py:86-108 | `distribute_pbs` puts 300 µL into row A of the ten diluent columns and takes 1500 µL from each of reservoir columns 4 and 5 (wells A5 and A6); pool columns 6 and 7 stay untouched |
| DualInducer.DiscardViews | dual_inducer_assay.py:172-173 | the final discard aspirates 300 µL from its well and dispenses nothing |
| DualInducer.ChainSources | dual_inducer_assay.py:164-173 | a chain aspirates from the reservoir well and then from every well of the path in order, the last time for the discard |
| DualInducer.ChainTargets | dual_inducer_assay.py:164-173 | a chain dispenses into every well of its path in order, once each |
| DualInducer.ChainDelivered | dual_inducer_assay.py:164-173 | a chain discards what it brought: the reservoir well loses 300 µL and every other well ends as it was |
| DualInducer.ColumnsDownShape | dual_inducer_assay.py:168 | the A path has k wells, from column c down to column c-k+1 |
| DualInducer.APlanViews | dual_inducer_assay.py:164-173 | step A3 aspirates from reservoir column 1 then columns 7 down to 0, dispenses into columns 7 down to 0, and only reservoir column 1 ends with 300 µL less |
| DualInducer.RowsDownShape | dual_inducer_assay.py:185 | the B path has k wells, from row r down to row r-k+1 |
| DualInducer.BChainViews | dual_inducer_assay.py:179-190 | one B chain dispenses into rows H to A of its column in order and only reservoir column 2 ends with 300 µL less |
| DualInducer.BChainsReach | dual_inducer_assay.py:177-190 | the B chains dispense into a source-plate well of rows A-H exactly when its column is one of the chained columns |
| DualInducer.BChainsDelivered | dual_inducer_assay.py:177-190 | the B chains take 300 µL per chain from reservoir column 2 and leave every other well as it was |
| DualInducer.BSourcesDilutedIff | dual_inducer_assay.py:177-225 | every plate draws its B gradient from a column the B step diluted exactly when there are three replicates |
| DualInducer.DestColumnsDownCount | dual_inducer_assay.py:228 | `targets_B` names row A of destination columns 11 down to 4 once each and no other well |
| DualInducer.ReagentDelivered | dual_inducer_assay.py:199-208 | the reagents of one plate put 30 µL into columns 0, 1, 2 and 60 µL into column 3, and nothing anywhere else on the plates |
| DualInducer.ReagentsDelivered | dual_inducer_assay.py:198-208 | the same for every plate served |
| DualInducer.GradientStepsDelivered | dual_inducer_assay.py:217-220 | gradient A puts 30 µL into destination column 11-o for each offset o, and nothing into any other destination well |
| DualInducer.GradientStepsEnds | dual_inducer_assay.py:217-220 | gradient A over `range(n)` aspirates from row A of source columns 7, 6, ..., 8-n and dispenses into row A of destination columns 11, 10, ..., 12-n, in that order, so step o takes source column 7-o to destination column 11-o |
| DualInducer.CellStepsDelivered | dual_inducer_assay.py:234-245 | the cells put 70 µL into row A of columns 0-2 and 40 µL into the other columns served |
| DualInducer.GradientADelivered | dual_inducer_assay.py:215-221 | under one tip, gradient A over `range(n)` fills destination columns 12-n to 11 with 30 µL each |
| DualInducer.CellsDelivered | dual_inducer_assay.py:234-245 | the cells of one plate reach columns 0 to n-1 with their cell volume |
| DualInducer.GradientBDelivered | dual_inducer_assay.py:224-230 | the B `distribute` puts 30 µL into row A of destination columns 4-11 of its plate and nothing elsewhere |
| DualInducer.PlateTransfersDelivered | dual_inducer_assay.py:212-245 | step B2 on one plate puts 30 + 30 µL of gradients into columns 4-11 and the cells into all twelve |
| DualInducer.TransfersDelivered | dual_inducer_assay.py:212-245 | step B2 on distinct plates gives each its plate total |
| DualInducer.ColumnTotal | dual_inducer_assay.py:198-245 | reagents plus step B2 make 100 µL in every column |
| DualInducer.DestinationTotals | dual_inducer_assay.py:198-245 | row A of every column of every plate in use ends with 100 µL and no other destination well receives anything |
| DualInducer.MoveLiquidOn | dual_inducer_assay.py:74-84 | issues exactly the `move_liquid` commands and leaves an empty tip on |
| DualInducer.PbsDraw | dual_inducer_assay.py:96-106 | one pass of the loop issues draw k's transfer and advances the counters to their state after k + 1 draws |
| DualInducer.PbsLoop | dual_inducer_assay.py:96-106 | the loop over the target columns issues one transfer per column, from the pool column the counter selects |
| DualInducer.DistributePbs | dual_inducer_assay.py:86-108 | issues one tip, the ten diluent transfers and the drop |
| DualInducer.SerialDilutionOn | dual_inducer_assay.py:111-121 | issues exactly the n-1 transfers along the wells |
| DualInducer.ChainOn | dual_inducer_assay.py:164-173 | issues a fresh tip, the inducer into the first well, the dilution along the path and the discard |
| DualInducer.InducerADilution | dual_inducer_assay.py:164-173 | issues step A3 at the rate multiplier |
| DualInducer.BChainOn | dual_inducer_assay.py:180-190 | issues step A4 for one column |
| DualInducer.BChainsOn | dual_inducer_assay.py:179-190 | issues one B chain per column, in order |
| DualInducer.InducerBDilutions | dual_inducer_assay.py:176-190 | issues one B chain per column of `columns()[-replicates:]` |
| DualInducer.ReagentsOnPlate | dual_inducer_assay.py:199-208 | issues the three `distribute` calls of one plate |
| DualInducer.ReagentsOn | dual_inducer_assay.py:198-208 | issues the reagents of every plate, in order |
| DualInducer.GradientAOn | dual_inducer_assay.py:215-221 | issues gradient A of one plate under one tip |
| DualInducer.CellOn | dual_inducer_assay.py:238-241 | issues the cells into one well under a fresh tip |
| DualInducer.CellsOn | dual_inducer_assay.py:234-245 | issues the cells of one plate: `wells_70`, then `wells_40` |
| DualInducer.PlateTransfersOn | dual_inducer_assay.py:212-245 | issues step B2 of one plate: gradient A, gradient B, the cells |
| DualInducer.TransfersOn | dual_inducer_assay.py:212-245 | issues step B2 for every plate, in order |
| DualInducer.Run | dual_inducer_assay.py:123-245 | each pipette's trace grows by its plan for the replicate count and rate, and both traces are accepted by the robot from start to end |
| FinalV3.MoveLiquidShape | final_v3.py:67-72 | aspirate, dispense, a mix exactly when `mix_opt` is true as the third command, the blow-out last |
| FinalV3.MoveLiquidAgrees | final_v3.py:67-72 | without a mix this helper issues the same commands as the dual-inducer script's `move_liquid` |
| FinalV3.PbsDraw | final_v3.py:112-119 | one pass checks the counter, issues draw k from column 4 + k/5 and advances the counters to their state after k + 1 draws |
| FinalV3.PbsLoop | final_v3.py:112-120 | the loop starting at column 4 and volume 0 issues the dual-inducer script's diluent transfers |
| FinalV3.DistributePbs | final_v3.py:109-122 | step 1 issues exactly the commands of the dual-inducer script's `distribute_pbs` |
| FinalV3.IntroViews | final_v3.py:127-130 | the inducer's arrival takes 300 µL from the reservoir well into the head of the chain |
| FinalV3.EndingViews | final_v3.py:139-140 | the end of a chain aspirates 300 µL from its well and dispenses nothing |
| FinalV3.CascadeStepViews | final_v3.py:131-137 | one cascade step moves 300 µL from one well to the next |
| FinalV3.CascadeSources | final_v3.py:131-137 | a cascade aspirates from every well of the path but the last, in order |
| FinalV3.CascadeTargets | final_v3.py:131-137 | a cascade dispenses into every well but the first, in order |
| FinalV3.CascadeDelivered | final_v3.py:131-137 | a cascade moves 300 µL from the first well to the last and leaves the others as they were |
| FinalV3.CascadeCommands | final_v3.py:131-137 | every cascade dispense runs at the cascade's rate, and a cascade without per-step blow-outs has none |
| FinalV3.ChainSources | final_v3.py:126-140 | a chain aspirates from the reservoir well and then from every well of the path, the last time for the discard |
| FinalV3.ChainTargets | final_v3.py:126-140 | a chain dispenses into every well of its path in order, once each |
| FinalV3.ChainDelivered | final_v3.py:126-140 | only the reservoir well ends with less (300 µL) |
| FinalV3.APlanViews | final_v3.py:126-140 | step 2 aspirates from reservoir column 1 then columns 7 down to 0, dispenses into 7 down to 0, and only reservoir column 1 loses 300 µL |
| FinalV3.BChainViews | final_v3.py:147-163 | step 3 on one column dispenses into rows H to A in order and only reservoir column 2 loses 300 µL |
| FinalV3.EntriesAt | final_v3.py:269-272 | the entries the loop adds name the listed columns' row-A wells, in order, with the given volume |
| FinalV3.CellDict2Shape | final_v3.py:265-272 | `cell_dict_2` holds columns 3 to 11 in order with 40 µL each |
| FinalV3.CellDict1Entries | final_v3.py:259-263 | `cell_dict_1` holds columns 0, 1, 2 with 70 µL each |
| FinalV3.PbsBlockDelivered | final_v3.py:174-181 | the diluent block takes 70 µL from reservoir column 5 and puts 30 µL into column 0 of the plate |
| FinalV3.InducerBlockDelivered | final_v3.py:184-195 | an inducer block takes 70 µL and puts 30 µL into its own column and 30 µL into column 3 |
| FinalV3.ReagentBlocksDelivered | final_v3.py:174-209 | the reagent blocks put 30 µL into columns 0-2 and 60 µL into column 3 of the first plate, nothing into other destination wells |
| FinalV3.GradientAStepsDelivered | final_v3.py:223-233 | gradient A puts 30 µL into destination column 11-o for each offset o, and nothing into any other destination well |
| FinalV3.GradientAStepEnds | final_v3.py:224-233 | gradient-A step o aspirates from row A of source column 7-o and dispenses into row A of destination column 11-o |
| FinalV3.GradientAStepsEnds | final_v3.py:223-233 | gradient A over `range(n)` aspirates from row A of source columns 7, 6, ..., 8-n and dispenses into row A of destination columns 11, 10, ..., 12-n, in that order |
| FinalV3.GradientBStepsDelivered | final_v3.py:243-249 | gradient B puts 30 µL into destination column 5-o for each offset o |
| FinalV3.CellBlockDelivered | final_v3.py:274-280 | one cell transfer puts the entry's volume into its well and nothing into other destination wells |
| FinalV3.CellBlocksDelivered | final_v3.py:274-288 | the cell transfers put into each destination well the volume of the entries naming it |
| FinalV3.EntryVolumeAppend | final_v3.py:274-288 | the volume a list of entries names for a well adds up over two lists |
| FinalV3.EntriesVolume | final_v3.py:259-272 | entries for distinct columns name the volume once for each listed well and nothing for others |
| FinalV3.CellsDelivered | final_v3.py:258-288 | the cells of one plate: 70 µL into columns 0-2, 40 µL into 3-11 |
| FinalV3.GradientADelivered | final_v3.py:222-234 | gradient A over `range(n)`, under one tip, fills columns 12-n to 11 with 30 µL each |
| FinalV3.GradientBDelivered | final_v3.py:242-251 | gradient B over `range(n)`, under one tip, fills columns 6-n to 5 with 30 µL each |
| FinalV3.PlateTransfersDelivered | final_v3.py:220-288 | steps 4-6 give each row-A well of the plate its plate volume |
| FinalV3.TransfersDelivered | final_v3.py:214-290 | the plate loop over distinct plates gives each its plate volume |
| FinalV3.PlatesDelivered | final_v3.py:89 | `[dest_1][:replicates]` reaches the first plate exactly when there is a replicate |
| FinalV3.DestinationTotals | final_v3.py:172-290 | with a replicate, columns 0-5 of the plate end with 100 µL and columns 6-11 with 70 µL; without one only the reagents arrive; nothing else is touched |
| FinalV3.BSourceDiluted | final_v3.py:145-240 | the first plate's B gradient draws from column 11, the column the first B chain dilutes |
| FinalV3.MoveLiquidOn | final_v3.py:67-72 | issues exactly the helper's commands and leaves an empty tip on |
| FinalV3.IntroOn | final_v3.py:127-130 | issues the inducer's arrival: aspirate at rate 0.6, dispense, mix, blow-out |
| FinalV3.CascadeStepOn | final_v3.py:131-137 | issues one cascade step |
| FinalV3.EndingOn | final_v3.py:139-140 | issues the discard and the drop |
| FinalV3.CascadeOn | final_v3.py:131-137 | issues the cascade along the path under the same tip |
| FinalV3.ChainOn | final_v3.py:126-140 | issues a whole chain under one tip |
| FinalV3.InducerADilution | final_v3.py:126-140 | issues step 2 |
| FinalV3.InducerBColumn | final_v3.py:148-162 | issues step 3 on one column: no per-step blow-out, one after the cascade, then the discard |
| FinalV3.InducerBDilutions | final_v3.py:145-163 | with two replicates or more the run stops at the lookup of column 12, with a tip on; with one replicate one chain on column 11, with none nothing |
| FinalV3.PbsBlockOn | final_v3.py:174-181 | issues the diluent block |
| FinalV3.InducerBlockOn | final_v3.py:184-195 | issues an inducer block |
| FinalV3.ReagentBlocksOn | final_v3.py:174-209 | issues the three reagent blocks |
| FinalV3.GradientAOn | final_v3.py:222-234 | issues gradient A of one plate under one tip |
| FinalV3.GradientBOn | final_v3.py:242-251 | issues gradient B of one plate under one tip |
| FinalV3.BuildCellDict2 | final_v3.py:265-272 | the dictionary built in place equals `cell_dict_2` |
| FinalV3.CellOn | final_v3.py:275-280 | issues one cell transfer under a fresh tip |
| FinalV3.CellsOn | final_v3.py:274-288 | issues one cell transfer per entry, in insertion order |
| FinalV3.CellPlanOn | final_v3.py:258-288 | issues step 6 of one plate |
| FinalV3.PlateOn | final_v3.py:214-290 | issues steps 4-6 of one plate |
| FinalV3.PlatesOn | final_v3.py:214-290 | issues steps 4-6 for every plate of `[dest_1][:replicates]` |
| FinalV3.Run | final_v3.py:74-290 | the outcome is the column-12 error exactly with two replicates or more; each trace grows by its plan, and the multi-channel trace is accepted from start to end |
| DestV5.PlateCount | dest_v5_lihao.py:36 | `[dest_1, dest_2][:replicates]` holds at most the two loaded plates |
| DestV5.PlateCountAccepted | dest_v5_lihao.py:11-36 | for 1 to 3 replicates, min(replicates, 2) plates are filled, so three replicates fill fewer plates than asked |
| DestV5.CellVolume | dest_v5_lihao.py:144-155 | the cells make every column 0-11 up to the 100 µL system: the 20 µL pipette's volume plus the cell volume is 100 µL |
| DestV5.GradientStepsDelivered | dest_v5_lihao.py:109-118 | a gradient puts 10 µL into destination column 11-o for each offset o, and nothing into any other destination well |
| DestV5.GradientStepEnds | dest_v5_lihao.py:110-118 | gradient step o aspirates from its source (source column 7-o for gradient A, the plate's B column for gradient B) and dispenses into row A of destination column 11-o |
| DestV5.GradientStepsTargets | dest_v5_lihao.py:109-118 | a gradient over `range(n)` dispenses into row A of destination columns 11, 10, ..., 12-n, in that order |
| DestV5.GradientASources | dest_v5_lihao.py:109-118 | gradient A over `range(n)` aspirates from row A of source columns 7, 6, ..., 8-n, in that order |
| DestV5.GradientDelivered | dest_v5_lihao.py:108-137 | a gradient over `range(n)`, under one tip, fills columns 12-n to 11 with 10 µL each |
| DestV5.PbsBlockDelivered | dest_v5_lihao.py:73-77 | step 1 takes 12 µL from reservoir well A1 and puts 10 µL into column 0 |
| DestV5.InducerBlockDelivered | dest_v5_lihao.py:81-104 | an inducer block takes 24 µL and puts 10 µL into its own column and 10 µL into column 3 |
| DestV5.SmallPlanDelivered | dest_v5_lihao.py:73-137 | the 20 µL pipette's work on one plate gives each row-A well its small-pipette volume |
| DestV5.CellDictEntries | dest_v5_lihao.py:145-155 | `cell_dict` is the 90 µL part, the positive control at 80 µL, and columns 4-11 at 80 µL |
| DestV5.CellDictWells | dest_v5_lihao.py:145-155 | `cell_dict` holds the twelve row-A wells of the plate in column order, once each |
| DestV5.CellDictVolumes | dest_v5_lihao.py:145-155 | every entry of `cell_dict` is 80 or 90 µL |
| DestV5.CellPlanDelivered | dest_v5_lihao.py:157-163 | the 300 µL pipette gives each row-A well its cell volume |
| DestV5.SmallPlansDelivered | dest_v5_lihao.py:70-137 | the small pipette's work on distinct plates gives each its volumes |
| DestV5.CellPlansDelivered | dest_v5_lihao.py:70-164 | the cell work on distinct plates gives each its volumes |
| DestV5.SystemVolume | dest_v5_lihao.py:144-163 | the "100 ul system": row A of every column of every filled plate ends with 100 µL, and no other destination well receives anything |
| DestV5.BSourcesOfFilledPlates | dest_v5_lihao.py:125-133 | plate i draws its B gradient from column 9 + i, so the filled plates use columns 9 and 10 |
| DestV5.BStepsSource | dest_v5_lihao.py:125-133 | every aspirate of a B gradient draws from row A of column 9 + plate |
| DestV5.PbsBlockOn | dest_v5_lihao.py:73-77 | issues step 1 |
| DestV5.InducerBlockOn | dest_v5_lihao.py:81-104 | issues steps 2 and 3; the tip keeps the 2 µL over-draws |
| DestV5.GradientStepOn | dest_v5_lihao.py:113-118 | issues one gradient transfer |
| DestV5.GradientLoop | dest_v5_lihao.py:109-118 | issues `for offset in range(n)` under the held tip |
| DestV5.GradientOn | dest_v5_lihao.py:108-137 | issues steps 4 and 5 of one plate |
| DestV5.SmallPlanOn | dest_v5_lihao.py:73-137 | issues steps 1-5 of one plate |
| DestV5.BuildCellDict | dest_v5_lihao.py:145-155 | the dictionary built in place equals `cell_dict` |
| DestV5.CellPlanOn | dest_v5_lihao.py:157-163 | issues step 6 of one plate |
| DestV5.Run | dest_v5_lihao.py:17-164 | more than three replicates raise before any command; otherwise each pipette's trace grows by its plan over the filled plates and both traces are accepted |
| SourceAgnes.PbsStepViews | source_2_replicates_agnes.py:35-37 | one diluent transfer takes 100 µL from reservoir well 0 into row A of its column |
| SourceAgnes.MixedTransferViews | source_2_replicates_agnes.py:50-53 | one dilution transfer moves 100 µL between two wells |
| SourceAgnes.PbsStepsShape | source_2_replicates_agnes.py:33-37 | the first k diluent transfers all draw from reservoir well 0 and fill the first k diluent columns in order |
| SourceAgnes.PbsStepsDelivered | source_2_replicates_agnes.py:33-37 | they take 100 µL per transfer from reservoir well 0 and put 100 µL into each column served |
| SourceAgnes.PbsChainShape | source_2_replicates_agnes.py:32-38 | step 1 under its tip aspirates only from reservoir well 0 and fills each diluent column once, in order |
| SourceAgnes.PbsChainDelivered | source_2_replicates_agnes.py:32-38 | step 1 moves 100 µL from reservoir well 0 into row A of each column served and nowhere else |
| SourceAgnes.ACascadeShape | source_2_replicates_agnes.py:47-53 | k cascade steps from column c aspirate from c, c-1, ... and dispense into c-1, ... |
| SourceAgnes.ACascadeDelivered | source_2_replicates_agnes.py:47-53 | the cascade moves 100 µL from column c to column c-k and leaves those between as they were |
| SourceAgnes.AChainSources | source_2_replicates_agnes.py:42-55 | the A chain aspirates from reservoir well 1 and then from columns 7 down to 0, 9 aspirates in all |
| SourceAgnes.AChainTargets | source_2_replicates_agnes.py:42-55 | the A chain dispenses into columns 7 down to 0, 8 dispenses in all |
| SourceAgnes.AChainDelivered | source_2_replicates_agnes.py:42-55 | the discard takes back what the first transfer brought: only reservoir well 1 loses 100 µL |
| SourceAgnes.BCascadeShape | source_2_replicates_agnes.py:65-71 | k cascade steps down a column from row r aspirate from r, r-1, ... and dispense into r-1, ... |
| SourceAgnes.BCascadeDelivered | source_2_replicates_agnes.py:65-71 | the cascade moves 100 µL from row r to row r-k of the column |
| SourceAgnes.BChainSources | source_2_replicates_agnes.py:60-72 | a B chain aspirates from reservoir well 2 and then from rows 7 down to 1; there is no discard |
| SourceAgnes.BChainTargets | source_2_replicates_agnes.py:60-72 | a B chain dispenses into rows 7 down to 0 |
| SourceAgnes.BChainDelivered | source_2_replicates_agnes.py:60-72 | without a discard row 0 keeps an extra 100 µL and reservoir well 2 loses 100 µL |
| SourceAgnes.MultiChannelRowA | source_2_replicates_agnes.py:32-55 | the multi-channel pipette leaves 100 µL in row A of each diluent column and nothing elsewhere in row A |
| SourceAgnes.SingleChannelSurplus | source_2_replicates_agnes.py:59-72 | the single-channel pipette leaves an extra 100 µL in row A of columns 9 and 10 and every other source-plate well as it was |
| SourceAgnes.PbsTransfer | source_2_replicates_agnes.py:34-37 | issues one diluent transfer |
| SourceAgnes.PbsLoop | source_2_replicates_agnes.py:33-37 | issues the loop over the diluent columns |
| SourceAgnes.DistributePbs | source_2_replicates_agnes.py:32-38 | issues step 1 under one tip |
| SourceAgnes.Transfer | source_2_replicates_agnes.py:50-53 | issues one mixed transfer |
| SourceAgnes.ACascadeLoop | source_2_replicates_agnes.py:47-53 | issues `for col in range(7, 0, -1)` |
| SourceAgnes.InducerADilution | source_2_replicates_agnes.py:42-55 | issues step 2 |
| SourceAgnes.BCascadeLoop | source_2_replicates_agnes.py:65-71 | issues `for row in range(7, 0, -1)` on one column |
| SourceAgnes.InducerBColumn | source_2_replicates_agnes.py:60-72 | issues step 3 on one column under its own tip |
| SourceAgnes.InducerBDilutions | source_2_replicates_agnes.py:59-72 | issues step 3 on columns 9 and 10 |
| SourceAgnes.Protocol | source_2_replicates_agnes.py:32-72 | each pipette's trace grows by its steps and both are accepted from start to end |
| GradientAgnes.CellStepShape | gradient_agnes_v1.py:71-80 | a cell step is a fresh tip, the cells in, exactly three 80 µL cycles at rate 0.8 in the same well, a blow-out and the drop |
| GradientAgnes.MixCyclesAt | gradient_agnes_v1.py:76-78 | k cycles are k pairs of an 80 µL aspirate and dispense at rate 0.8 |
| GradientAgnes.MixCyclesDelivered | gradient_agnes_v1.py:76-78 | the cycles take out what they put back, in their own well only |
| GradientAgnes.DiluentStepsDelivered | gradient_agnes_v1.py:49-53 | the diluent loop puts `diluent_vol[i]` into column i for the columns it covers, nothing elsewhere |
| GradientAgnes.StockStepsDelivered | gradient_agnes_v1.py:60-65 | the stock loop puts `stock_vol[i]` into column i for the columns it covers, nothing elsewhere |
| GradientAgnes.CellStepDelivered | gradient_agnes_v1.py:71-80 | one cell step puts the total volume into its column only |
| GradientAgnes.CellStepsDelivered | gradient_agnes_v1.py:71-80 | the cell loop puts the total volume into every column it covers |
| GradientAgnes.Coverage | gradient_agnes_v1.py:49-71 | diluent reaches exactly columns 0..n-2, stock exactly columns 1..n-1, cells exactly columns 0..n-1 |
| GradientAgnes.UnderOneTipTargets | gradient_agnes_v1.py:48-54 | the tip pick-up and drop around a loop add no dispense |
| GradientAgnes.ColumnTotals | gradient_agnes_v1.py:47-80 | each column ends with its diluent unless it is the last, its stock unless it is the first, and the cells |
| GradientAgnes.FromTable | gradient_agnes_v1.py:19-22 | fed a calculated table, each inner column ends with twice the total volume; column 0 lacks the stock and the last column the diluent |
| GradientAgnes.DiluentStepOn | gradient_agnes_v1.py:50-53 | issues one diluent transfer |
| GradientAgnes.DiluentLoop | gradient_agnes_v1.py:49-53 | issues the diluent loop under the held tip |
| GradientAgnes.AddDiluent | gradient_agnes_v1.py:48-54 | issues step 1 |
| GradientAgnes.StockStepOn | gradient_agnes_v1.py:61-65 | issues one stock transfer with its mix |
| GradientAgnes.StockLoop | gradient_agnes_v1.py:60-65 | issues the stock loop over columns 1..n-1 |
| GradientAgnes.AddStock | gradient_agnes_v1.py:59-66 | issues step 2 |
| GradientAgnes.MixCyclesOn | gradient_agnes_v1.py:76-78 | issues `for mix in range(3)` in one well |
| GradientAgnes.CellStepOn | gradient_agnes_v1.py:72-80 | issues the cells into one column under a fresh tip |
| GradientAgnes.AddCells | gradient_agnes_v1.py:71-80 | issues step 3 |
| GradientAgnes.Protocol | gradient_agnes_v1.py:47-80 | the trace grows by the three steps and is accepted from start to end |

## Left out

- The Qt user interface of both editors (widgets, tabs, message boxes, table rendering and rounding, the directory dialog). The values the widgets hold are parameters.
- Reading and writing JSON files, and the text-to-number parsing of the target list. The parsed values are parameters.
- IEEE floating point. Volumes are mathematical reals.
- Robot internals: loading labware and instruments, flow-rate settings, well-bottom clearance, `.top()`/`.bottom()` positions, tip-rack exhaustion, and printing the command list.
- The eight-row fan-out of multi-channel commands. A multi-channel command is recorded against the top well of its column.
- The expansion of `distribute`. It is one abstract command; `Delivered` credits its volume to each target and does not debit its source.
- DualInducer.DestinationTotals: holds under the assumption that `distribute` delivers its volume to each target once, because its expansion is not visible.
- Liquid a blow-out expels is not counted by `Delivered`. Examples are the 2 µL over-draws in dest_v5_lihao.py and the residual of its 100 µL cell aspirate.
- The order in which the two pipettes' commands interleave. Each pipette has its own trace.
- `protocol.comment` messages.
- final_v1.py is not part of this model. It is not valid Python, and its loops repeat those of final_v3.py.
- DualInducer.Run: takes the replicate count as an integer from 1 to 3, after `ValidateParameters`. The accepted float values 1.0-3.0 would fail in Python's slice `columns()[-REPLICATES:]` with a type error, and that path is not modelled.
- DualInducer.InducerBDilutions: requires 1 to 12 replicates, the columns the source plate has.
- GradientAgnes.Protocol: requires every volume to lie between 0 and the pipette's capacity. The robot checks this at run time; a failing check is not modelled.
