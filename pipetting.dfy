/**
 * Pipette commands against (labware, column, row) addresses, a pure
 * simulator of the tip state they imply, and a pipette object that records
 * the commands issued to it.
 *
 * A multi-channel command is recorded against the top well (row 0) of the
 * column it serves; the fan-out over the eight rows is not modelled.
 */
module Pipetting {
  import opened Outcomes

  /** The labware a well belongs to; destination plates are numbered from 0. */
  datatype Labware = Reservoir | SourcePlate | DestPlate(index: nat)

  datatype Well = Well(labware: Labware, column: int, row: int)

  /** The `new_tip` policy of a `distribute` call. */
  datatype TipPolicy = Once | Always

  /** One command issued to a pipette. A `distribute` call is one abstract
      command: its expansion into tips and liquid moves is not visible. */
  datatype Op =
    | PickUpTip
    | DropTip
    | Aspirate(volume: real, at: Well, rate: real)
    | Dispense(volume: real, at: Well, rate: real)
    | Mix(repetitions: int, volume: real, at: Well)
    | BlowOut(at: Well)
    | Distribute(volume: real, source: Well, targets: seq<Well>, policy: TipPolicy)

  /** Whether a tip is on the pipette, and the liquid volume held in it. */
  datatype TipState = TipState(hasTip: bool, held: real)

  const Idle := TipState(false, 0.0)

  /** The default aspirate/dispense rate multiplier of the robot API. */
  const DefaultRate: real := 1.0

  /** What one command does to the tip state; None when the robot would
      refuse it (no tip, a second tip, more liquid out than in, or more
      liquid in than the tip holds). */
  function Step(s: TipState, op: Op, capacity: real): Option<TipState>
  {
    match op
    case PickUpTip => if s.hasTip then None else Some(TipState(true, 0.0))
    case DropTip => if s.hasTip then Some(Idle) else None
    case Aspirate(v, _, _) =>
      if s.hasTip && 0.0 <= v && s.held + v <= capacity then Some(TipState(true, s.held + v)) else None
    case Dispense(v, _, _) =>
      if s.hasTip && 0.0 <= v <= s.held then Some(TipState(true, s.held - v)) else None
    case Mix(_, v, _) =>
      if s.hasTip && 0.0 <= v && s.held + v <= capacity then Some(s) else None
    case BlowOut(_) => if s.hasTip then Some(TipState(true, 0.0)) else None
    case Distribute(_, _, _, _) => if s.hasTip then None else Some(s)
  }

  /** Runs a command list from a tip state; None as soon as one command is refused. */
  function Exec(s: TipState, ops: seq<Op>, capacity: real): Option<TipState>
    decreases |ops|
  {
    if ops == [] then Some(s)
    else
      match Exec(s, ops[..|ops| - 1], capacity)
      case None => None
      case Some(t) => Step(t, ops[|ops| - 1], capacity)
  }

  /** A plan every command of which the robot accepts, starting and ending without a tip:
      every tip picked up is dropped, no tip is picked up while one is held, and
      no liquid command happens without a tip. */
  predicate Feasible(ops: seq<Op>, capacity: real)
  {
    Exec(Idle, ops, capacity) == Some(Idle)
  }

  lemma {:induction false} ExecAppend(s: TipState, a: seq<Op>, b: seq<Op>, capacity: real)
    ensures Exec(s, a + b, capacity) ==
            match Exec(s, a, capacity)
            case None => None
            case Some(t) => Exec(t, b, capacity)
    decreases |b|
  {
    if b == [] {
      assert a + b == a;
    } else {
      var b' := b[..|b| - 1];
      assert (a + b)[..|a + b| - 1] == a + b';
      assert (a + b)[|a + b| - 1] == b[|b| - 1];
      ExecAppend(s, a, b', capacity);
    }
  }

  /** Concatenating feasible plans gives a feasible plan. */
  lemma FeasibleAppend(a: seq<Op>, b: seq<Op>, capacity: real)
    requires Feasible(a, capacity) && Feasible(b, capacity)
    ensures Feasible(a + b, capacity)
  {
    ExecAppend(Idle, a, b, capacity);
  }

  // ---------------------------------------------------------------------------
  // Tip-lifetime scan: an independent statement of the tip discipline.

  /** Tips picked up minus tips dropped. */
  function TipDepth(ops: seq<Op>): int
    decreases |ops|
  {
    if ops == [] then 0
    else TipDepth(ops[..|ops| - 1]) + (match ops[|ops| - 1]
                                       case PickUpTip => 1
                                       case DropTip => -1
                                       case _ => 0)
  }

  lemma {:induction false} ExecDepth(ops: seq<Op>, capacity: real)
    requires Exec(Idle, ops, capacity).Some?
    ensures TipDepth(ops) == if Exec(Idle, ops, capacity).value.hasTip then 1 else 0
    ensures forall k :: 0 <= k <= |ops| ==> Exec(Idle, ops[..k], capacity).Some?
    decreases |ops|
  {
    if ops != [] {
      var init := ops[..|ops| - 1];
      ExecDepth(init, capacity);
      forall k | 0 <= k <= |ops| ensures Exec(Idle, ops[..k], capacity).Some? {
        if k < |ops| {
          assert ops[..k] == init[..k];
        } else {
          assert ops[..k] == ops;
        }
      }
    }
  }

  /** Scanning a feasible plan never shows two tips picked up without a drop
      between them, nor a drop without a tip, and it ends with every tip dropped. */
  lemma FeasibleTipsAlternate(ops: seq<Op>, capacity: real)
    requires Feasible(ops, capacity)
    ensures TipDepth(ops) == 0
    ensures forall k :: 0 <= k <= |ops| ==> 0 <= TipDepth(ops[..k]) <= 1
  {
    ExecDepth(ops, capacity);
    forall k | 0 <= k <= |ops| ensures 0 <= TipDepth(ops[..k]) <= 1 {
      ExecDepth(ops[..k], capacity);
    }
  }

  // ---------------------------------------------------------------------------
  // Well addresses shared by the scripts.

  /** The source-plate columns (from 0) that receive the diluent in every protocol:
      the eight of the inducer-A gradient and the two of the inducer-B gradients. */
  const DiluentColumns: seq<int> := [0, 1, 2, 3, 4, 5, 6, 7, 9, 10]

  lemma DiluentColumnsIncreasing()
    ensures forall i, j :: 0 <= i < j < |DiluentColumns| ==> DiluentColumns[i] < DiluentColumns[j]
  {
  }

  /** No element occurs twice. */
  ghost predicate Distinct<T>(xs: seq<T>)
  {
    forall i, j :: 0 <= i < j < |xs| ==> xs[i] != xs[j]
  }

  /** Dropping the last element keeps a list distinct, and the dropped element is not in the rest. */
  lemma DistinctInit<T>(xs: seq<T>)
    requires Distinct(xs) && xs != []
    ensures Distinct(xs[..|xs| - 1]) && xs[|xs| - 1] !in xs[..|xs| - 1]
  {
  }

  /** A non-empty list is its front followed by its last element, after any prefix. */
  lemma PrefixSnoc<T>(prefix: seq<T>, xs: seq<T>)
    requires xs != []
    ensures prefix + xs[..|xs| - 1] + [xs[|xs| - 1]] == prefix + xs
  {
    assert xs[..|xs| - 1] + [xs[|xs| - 1]] == xs;
  }

  /** A slice without its last element is the shorter slice. */
  lemma SliceInit<T>(xs: seq<T>, a: nat, b: nat)
    requires a < b <= |xs|
    ensures xs[a..b][..b - 1 - a] == xs[a..b - 1]
  {
  }

  /** An element of a non-empty list is in its front or is its last element. */
  lemma InInit<T>(xs: seq<T>, x: T)
    requires xs != []
    ensures x in xs <==> x in xs[..|xs| - 1] || x == xs[|xs| - 1]
  {
    assert xs == xs[..|xs| - 1] + [xs[|xs| - 1]];
  }

  /** `range(n)`: 0, 1, ..., n-1. */
  function Upto(n: nat): (r: seq<nat>)
    ensures |r| == n
  {
    if n == 0 then [] else Upto(n - 1) + [n - 1]
  }

  lemma {:induction false} UptoShape(n: nat)
    ensures forall i :: 0 <= i < n ==> Upto(n)[i] == i
  {
    if n > 0 {
      UptoShape(n - 1);
    }
  }

  /** `range(n)` without its last element is `range(n - 1)`. */
  lemma UptoSnoc(n: nat)
    requires n > 0
    ensures Upto(n)[..n - 1] == Upto(n - 1) && Upto(n)[n - 1] == n - 1
  {
    assert Upto(n) == Upto(n - 1) + [n - 1];
  }

  /** `range(n)` holds exactly 0, ..., n-1, each once. */
  lemma UptoMembers(n: nat, x: int)
    ensures x in Upto(n) <==> 0 <= x < n
    ensures Distinct(Upto(n))
  {
    UptoShape(n);
    if 0 <= x < n {
      assert Upto(n)[x] == x;
    }
  }

  /** The elements of `range(n)` from position `a` on are exactly a, ..., n-1, each once. */
  lemma UptoSuffix(n: nat, a: nat, x: int)
    requires a <= n
    ensures x in Upto(n)[a..] <==> a <= x < n
    ensures Distinct(Upto(n)[a..])
  {
    UptoShape(n);
    if a <= x < n {
      assert Upto(n)[a..][x - a] == x;
    }
  }

  /** Column `i` of the reservoir (its row-A well). */
  function Res(i: int): Well { Well(Reservoir, i, 0) }

  /** A well of the source plate. */
  function Src(column: int, row: int): Well { Well(SourcePlate, column, row) }

  /** `k` copies of `w`. */
  function Repeat(w: Well, k: nat): seq<Well>
  {
    if k == 0 then [] else Repeat(w, k - 1) + [w]
  }

  /** The row-A wells of the first `k` diluent columns, in order. */
  function DiluentWells(k: nat): seq<Well>
    requires k <= |DiluentColumns|
  {
    if k == 0 then [] else DiluentWells(k - 1) + [Src(DiluentColumns[k - 1], 0)]
  }

  /** The row-A wells of `k` source columns counting down from `column`. */
  function ColumnsDown(column: int, k: nat): seq<Well>
  {
    if k == 0 then [] else ColumnsDown(column, k - 1) + [Src(column - k + 1, 0)]
  }

  /** `k` wells of source column `column` counting from row `row` towards row A. */
  function RowsDown(column: int, row: int, k: nat): seq<Well>
  {
    if k == 0 then [] else RowsDown(column, row, k - 1) + [Src(column, row - k + 1)]
  }

  lemma {:induction false} ColumnsDownCons(column: int, k: nat)
    ensures [Src(column, 0)] + ColumnsDown(column - 1, k) == ColumnsDown(column, k + 1)
  {
    if k > 0 {
      ColumnsDownCons(column, k - 1);
      AppendAssoc([Src(column, 0)], ColumnsDown(column - 1, k - 1), [Src(column - k, 0)]);
    }
  }

  lemma {:induction false} RowsDownCons(column: int, row: int, k: nat)
    ensures [Src(column, row)] + RowsDown(column, row - 1, k) == RowsDown(column, row, k + 1)
  {
    if k > 0 {
      RowsDownCons(column, row, k - 1);
      AppendAssoc([Src(column, row)], RowsDown(column, row - 1, k - 1), [Src(column, row - k)]);
    }
  }

  /** `ColumnsDown` lists row A of columns `column`, `column`-1, ... in that order. */
  lemma {:induction false} ColumnsDownAt(column: int, k: nat)
    ensures |ColumnsDown(column, k)| == k
    ensures forall i :: 0 <= i < k ==> ColumnsDown(column, k)[i] == Src(column - i, 0)
  {
    if k > 0 {
      ColumnsDownAt(column, k - 1);
    }
  }

  /** `RowsDown` lists rows `row`, `row`-1, ... of `column` in that order. */
  lemma {:induction false} RowsDownAt(column: int, row: int, k: nat)
    ensures |RowsDown(column, row, k)| == k
    ensures forall i :: 0 <= i < k ==> RowsDown(column, row, k)[i] == Src(column, row - i)
  {
    if k > 0 {
      RowsDownAt(column, row, k - 1);
    }
  }

  /** A well is one of the first `k` diluent wells exactly when it is the
      row-A well of one of the first `k` diluent columns. */
  lemma {:induction false} DiluentWellsMembers(k: nat, w: Well)
    requires k <= |DiluentColumns|
    ensures w in DiluentWells(k) <==> w.labware == SourcePlate && w.row == 0 && w.column in DiluentColumns[..k]
  {
    if k > 0 {
      DiluentWellsMembers(k - 1, w);
      assert DiluentColumns[..k] == DiluentColumns[..k - 1] + [DiluentColumns[k - 1]];
    }
  }

  /** No diluent column is served twice. */
  lemma {:induction false} DiluentWellsBefore(k: nat, j: nat)
    requires k <= j < |DiluentColumns|
    ensures Src(DiluentColumns[j], 0) !in DiluentWells(k)
  {
    if k > 0 {
      DiluentWellsBefore(k - 1, j);
      DiluentColumnsIncreasing();
    }
  }

  /** The wells `RowsDown` lists are those of `column` from row `row` back to row `row`-k+1. */
  lemma {:induction false} RowsDownMembers(column: int, row: int, k: nat, w: Well)
    ensures w in RowsDown(column, row, k) <==>
            w.labware == SourcePlate && w.column == column && row - k < w.row <= row
  {
    if k > 0 {
      RowsDownMembers(column, row, k - 1, w);
    }
  }

  // ---------------------------------------------------------------------------
  // Views of a plan.

  /** The well a command aspirates from, if it aspirates. */
  function SourceOf(op: Op): seq<Well>
  {
    if op.Aspirate? then [op.at] else []
  }

  /** The well a command dispenses into, if it dispenses. */
  function TargetOf(op: Op): seq<Well>
  {
    if op.Dispense? then [op.at] else []
  }

  /** How often `w` occurs in `ws`. */
  function Occurrences(ws: seq<Well>, w: Well): nat
  {
    if ws == [] then 0 else Occurrences(ws[1..], w) + (if ws[0] == w then 1 else 0)
  }

  lemma {:induction false} OccurrencesAppend(a: seq<Well>, b: seq<Well>, w: Well)
    ensures Occurrences(a + b, w) == Occurrences(a, w) + Occurrences(b, w)
  {
    if a == [] {
      assert a + b == b;
    } else {
      assert (a + b)[0] == a[0];
      assert (a + b)[1..] == a[1..] + b;
      OccurrencesAppend(a[1..], b, w);
    }
  }

  lemma OccurrencesOne(a: Well, w: Well)
    ensures Occurrences([a], w) == if a == w then 1 else 0
  {
    assert [a][1..] == [];
  }

  /** The net volume one command puts into well `w`: a dispense adds, an aspirate
      removes, a `distribute` delivers its volume to every target once. Mixing moves
      nothing in or out, and a blow-out expels no planned volume. */
  function DeliveredBy(op: Op, w: Well): real
  {
    match op
    case Dispense(v, at, _) => if at == w then v else 0.0
    case Aspirate(v, at, _) => if at == w then -v else 0.0
    case Distribute(v, _, ts, _) => v * Occurrences(ts, w) as real
    case _ => 0.0
  }

  /** The wells aspirated from, in order. */
  function Sources(ops: seq<Op>): seq<Well>
    decreases |ops|
  {
    if ops == [] then [] else Sources(ops[..|ops| - 1]) + SourceOf(ops[|ops| - 1])
  }

  /** The wells dispensed into, in order. */
  function Targets(ops: seq<Op>): seq<Well>
    decreases |ops|
  {
    if ops == [] then [] else Targets(ops[..|ops| - 1]) + TargetOf(ops[|ops| - 1])
  }

  /** The net volume a plan puts into well `w`. */
  function Delivered(ops: seq<Op>, w: Well): real
    decreases |ops|
  {
    if ops == [] then 0.0 else Delivered(ops[..|ops| - 1], w) + DeliveredBy(ops[|ops| - 1], w)
  }

  lemma ViewsSnoc(ops: seq<Op>, op: Op, w: Well)
    ensures Sources(ops + [op]) == Sources(ops) + SourceOf(op)
    ensures Targets(ops + [op]) == Targets(ops) + TargetOf(op)
    ensures Delivered(ops + [op], w) == Delivered(ops, w) + DeliveredBy(op, w)
  {
    assert (ops + [op])[..|ops|] == ops;
  }

  lemma {:induction false} SourcesAppend(a: seq<Op>, b: seq<Op>)
    ensures Sources(a + b) == Sources(a) + Sources(b)
    decreases |b|
  {
    if b == [] {
      assert a + b == a;
    } else {
      var b' := b[..|b| - 1];
      assert a + b == (a + b') + [b[|b| - 1]];
      assert b == b' + [b[|b| - 1]];
      SourcesAppend(a, b');
      ViewsSnoc(a + b', b[|b| - 1], Well(Reservoir, 0, 0));
      ViewsSnoc(b', b[|b| - 1], Well(Reservoir, 0, 0));
    }
  }

  /** The three views of a plan made of four consecutive parts. */
  lemma Append4(a: seq<Op>, b: seq<Op>, c: seq<Op>, d: seq<Op>, w: Well)
    ensures Sources(a + b + c + d) == Sources(a) + Sources(b) + Sources(c) + Sources(d)
    ensures Targets(a + b + c + d) == Targets(a) + Targets(b) + Targets(c) + Targets(d)
    ensures Delivered(a + b + c + d, w) == Delivered(a, w) + Delivered(b, w) + Delivered(c, w) + Delivered(d, w)
  {
    SourcesAppend(a, b);
    SourcesAppend(a + b, c);
    SourcesAppend(a + b + c, d);
    TargetsAppend(a, b);
    TargetsAppend(a + b, c);
    TargetsAppend(a + b + c, d);
    DeliveredAppend(a, b, w);
    DeliveredAppend(a + b, c, w);
    DeliveredAppend(a + b + c, d, w);
  }

  /** The views of the pick-up of a fresh tip. */
  lemma PickUpViews(w: Well)
    ensures Sources([PickUpTip]) == [] && Targets([PickUpTip]) == [] && Delivered([PickUpTip], w) == 0.0
  {
    ViewsSnoc([], PickUpTip, w);
    assert [] + [PickUpTip] == [PickUpTip];
  }

  lemma {:induction false} TargetsAppend(a: seq<Op>, b: seq<Op>)
    ensures Targets(a + b) == Targets(a) + Targets(b)
    decreases |b|
  {
    if b == [] {
      assert a + b == a;
    } else {
      var b' := b[..|b| - 1];
      assert a + b == (a + b') + [b[|b| - 1]];
      assert b == b' + [b[|b| - 1]];
      TargetsAppend(a, b');
      ViewsSnoc(a + b', b[|b| - 1], Well(Reservoir, 0, 0));
      ViewsSnoc(b', b[|b| - 1], Well(Reservoir, 0, 0));
    }
  }

  lemma {:induction false} DeliveredAppend(a: seq<Op>, b: seq<Op>, w: Well)
    ensures Delivered(a + b, w) == Delivered(a, w) + Delivered(b, w)
    decreases |b|
  {
    if b == [] {
      assert a + b == a;
    } else {
      var b' := b[..|b| - 1];
      assert a + b == (a + b') + [b[|b| - 1]];
      assert b == b' + [b[|b| - 1]];
      DeliveredAppend(a, b', w);
      ViewsSnoc(a + b', b[|b| - 1], w);
      ViewsSnoc(b', b[|b| - 1], w);
    }
  }

  /** Picking up a tip before a block and dropping it after moves no liquid. */
  lemma UnderOneTip(body: seq<Op>, w: Well)
    ensures Delivered([PickUpTip] + body + [DropTip], w) == Delivered(body, w)
  {
    DeliveredAppend([PickUpTip], body, w);
    DeliveredAppend([PickUpTip] + body, [DropTip], w);
  }

  /** Regrouping a command list that was built one block at a time. */
  lemma AppendAssoc<T>(t: seq<T>, a: seq<T>, b: seq<T>)
    ensures t + a + b == t + (a + b)
  {
  }

  /** The views of a single command. */
  lemma Views1(x: Op, w: Well)
    ensures Sources([x]) == SourceOf(x) && Targets([x]) == TargetOf(x) && Delivered([x], w) == DeliveredBy(x, w)
  {
    ViewsSnoc([], x, w);
    assert [] + [x] == [x];
  }

  /** The views of a block of two commands. */
  lemma Views2(x: Op, y: Op, w: Well)
    ensures Sources([x, y]) == SourceOf(x) + SourceOf(y)
    ensures Targets([x, y]) == TargetOf(x) + TargetOf(y)
    ensures Delivered([x, y], w) == DeliveredBy(x, w) + DeliveredBy(y, w)
  {
    Views1(x, w);
    ViewsSnoc([x], y, w);
    assert [x] + [y] == [x, y];
  }

  /** The views of a block of three commands. */
  lemma Views3(x: Op, y: Op, z: Op, w: Well)
    ensures Sources([x, y, z]) == SourceOf(x) + SourceOf(y) + SourceOf(z)
    ensures Targets([x, y, z]) == TargetOf(x) + TargetOf(y) + TargetOf(z)
    ensures Delivered([x, y, z], w) == DeliveredBy(x, w) + DeliveredBy(y, w) + DeliveredBy(z, w)
  {
    Views2(x, y, w);
    ViewsSnoc([x, y], z, w);
    assert [x, y] + [z] == [x, y, z];
  }

  /** The views of a block of four commands. */
  lemma Views4(x: Op, y: Op, z: Op, u: Op, w: Well)
    ensures Sources([x, y, z, u]) == SourceOf(x) + SourceOf(y) + SourceOf(z) + SourceOf(u)
    ensures Targets([x, y, z, u]) == TargetOf(x) + TargetOf(y) + TargetOf(z) + TargetOf(u)
    ensures Delivered([x, y, z, u], w) == DeliveredBy(x, w) + DeliveredBy(y, w) + DeliveredBy(z, w) + DeliveredBy(u, w)
  {
    Views3(x, y, z, w);
    ViewsSnoc([x, y, z], u, w);
    assert [x, y, z] + [u] == [x, y, z, u];
  }

  // ---------------------------------------------------------------------------

  /** A pipette as the protocol sees it: the commands issued to it so far and
      the tip state they leave. Each command method requires what the robot
      checks before carrying the command out. */
  class Pipette {
    const capacity: real
    var hasTip: bool
    var held: real
    var trace: seq<Op>

    ghost predicate Valid()
      reads this
    {
      && Exec(Idle, trace, capacity) == Some(TipState(hasTip, held))
      && (!hasTip ==> held == 0.0)
    }

    constructor (capacity: real)
      ensures Valid() && this.capacity == capacity
      ensures trace == [] && !hasTip
    {
      this.capacity := capacity;
      hasTip := false;
      held := 0.0;
      trace := [];
    }

    /** Records `op` and moves to the tip state `Step` gives for it. */
    method Record(op: Op, s: TipState)
      requires Valid() && Step(TipState(hasTip, held), op, capacity) == Some(s)
      modifies this
      ensures Valid() && trace == old(trace) + [op]
      ensures hasTip == s.hasTip && held == s.held
    {
      ghost var before := trace;
      trace := trace + [op];
      assert trace[..|trace| - 1] == before;
      hasTip, held := s.hasTip, s.held;
    }

    method PickUpTip()
      requires Valid() && !hasTip
      modifies this
      ensures Valid() && trace == old(trace) + [Op.PickUpTip]
      ensures hasTip && held == 0.0
    {
      Record(Op.PickUpTip, TipState(true, 0.0));
    }

    method DropTip()
      requires Valid() && hasTip
      modifies this
      ensures Valid() && trace == old(trace) + [Op.DropTip]
      ensures !hasTip
    {
      Record(Op.DropTip, Idle);
    }

    method Aspirate(volume: real, at: Well, rate: real)
      requires Valid() && hasTip && 0.0 <= volume && held + volume <= capacity
      modifies this
      ensures Valid() && trace == old(trace) + [Op.Aspirate(volume, at, rate)]
      ensures hasTip && held == old(held) + volume
    {
      Record(Op.Aspirate(volume, at, rate), TipState(true, held + volume));
    }

    method Dispense(volume: real, at: Well, rate: real)
      requires Valid() && hasTip && 0.0 <= volume <= held
      modifies this
      ensures Valid() && trace == old(trace) + [Op.Dispense(volume, at, rate)]
      ensures hasTip && held == old(held) - volume
    {
      Record(Op.Dispense(volume, at, rate), TipState(true, held - volume));
    }

    method Mix(repetitions: int, volume: real, at: Well)
      requires Valid() && hasTip && 0.0 <= volume && held + volume <= capacity
      modifies this
      ensures Valid() && trace == old(trace) + [Op.Mix(repetitions, volume, at)]
      ensures hasTip && held == old(held)
    {
      Record(Op.Mix(repetitions, volume, at), TipState(hasTip, held));
    }

    method BlowOut(at: Well)
      requires Valid() && hasTip
      modifies this
      ensures Valid() && trace == old(trace) + [Op.BlowOut(at)]
      ensures hasTip && held == 0.0
    {
      Record(Op.BlowOut(at), TipState(true, 0.0));
    }

    /** A `distribute` call handles its own tips, so no tip may be on the pipette. */
    method Distribute(volume: real, source: Well, targets: seq<Well>, policy: TipPolicy)
      requires Valid() && !hasTip
      modifies this
      ensures Valid() && trace == old(trace) + [Op.Distribute(volume, source, targets, policy)]
      ensures !hasTip
    {
      Record(Op.Distribute(volume, source, targets, policy), TipState(hasTip, held));
    }
  }
}
