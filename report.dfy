/** The per-row rules of `GenerateXLSXReport` in src/SoundCath.py: which rows of the results
    map are skipped, which cells a row fills in, how a capacitance is classified Open or Short,
    and which rows feed the running sums the averages are taken from. Workbook I/O, number
    formatting and cell colouring are not part of this model; a cell is the real value that
    the source formats. */
module Report {
  import opened Wrappers

  /** A pulse-echo slot: verdict, peak-to-peak voltage (V), centre frequency (Hz), bandwidth (Hz). */
  datatype PulseEchoRow = PulseEchoRow(passed: bool, vpp: Option<real>, center: Option<real>, bandwidth: Option<real>)

  /** An impedance or dongle slot: verdict, capacitance (F), impedance (ohm). */
  datatype CapacitanceRow = CapacitanceRow(passed: bool, capacitance: Option<real>, impedance: Option<real>)

  /** The slots a run starts from, before any test has reported. */
  const EmptyPulseEcho := PulseEchoRow(false, None, None, None)
  const EmptyCapacitance := CapacitanceRow(false, None, None)

  /** The Python exceptions the modelled code can raise, or that a test instrument raises into it. */
  datatype PyError = IndexError | ZeroDivisionError | TypeError | AttributeError

  /** A row holding `None` anywhere is skipped. */
  predicate PulseEchoComplete(row: PulseEchoRow)
  {
    row.vpp.Some? && row.center.Some? && row.bandwidth.Some?
  }

  predicate CapacitanceComplete(row: CapacitanceRow)
  {
    row.capacitance.Some? && row.impedance.Some?
  }

  /** The rows that contribute to a sheet's sums: complete and passed. */
  predicate PulseEchoCounted(row: PulseEchoRow)
  {
    PulseEchoComplete(row) && row.passed
  }

  predicate CapacitanceCounted(row: CapacitanceRow)
  {
    CapacitanceComplete(row) && row.passed
  }

  /** A complete pulse-echo row divides its bandwidth by its centre frequency. */
  predicate Divisible(row: PulseEchoRow)
  {
    !PulseEchoComplete(row) || row.center.value != 0.0
  }

  predicate AllDivisible(rows: seq<PulseEchoRow>)
  {
    forall k :: 0 <= k < |rows| ==> Divisible(rows[k])
  }

  /** How many rows a sheet loop visits: `range(first, first + mc)` is empty for mc <= 0. */
  function RowCount(mc: int): nat
  {
    if mc < 0 then 0 else mc
  }

  // ---- cell rules ----

  function Verdict(passed: bool): string
  {
    if passed then "Pass" else "Fail"
  }

  /** A channel with no peak-to-peak voltage at all is marked dead. */
  function Dead(vpp: real): string
  {
    if vpp == 0.0 then "True" else ""
  }

  const Pico: real := 0.000000000001
  /** Above this a capacitance counts as an open (intact) channel on both sheets. */
  const OpenLower: real := 10.0 * Pico
  const ImpedanceUpper: real := 600.0 * Pico
  const DongleUpper: real := 180.0 * Pico

  /** The Open/Short column. */
  function OpenShort(c: real, upper: real): string
  {
    if OpenLower < c && c < upper then "Open" else if c < 0.0 then "Short" else ""
  }

  /** The verdict column reads "Pass" exactly for a passed row and "Fail" otherwise; the dead
      column reads "True" exactly when Vpp is zero and is empty otherwise. */
  lemma VerdictAndDeadCells(passed: bool, vpp: real)
    ensures Verdict(passed) == "Pass" <==> passed
    ensures Verdict(passed) == "Fail" <==> !passed
    ensures Dead(vpp) == "True" <==> vpp == 0.0
    ensures Dead(vpp) == "" <==> vpp != 0.0
  {
  }

  /** "Open" strictly inside (10 pF, upper), otherwise "Short" for a negative capacitance,
      otherwise empty. */
  lemma OpenShortCell(c: real, upper: real)
    ensures OpenShort(c, upper) == "Open" <==> OpenLower < c < upper
    ensures OpenShort(c, upper) == "Short" <==> !(OpenLower < c < upper) && c < 0.0
    ensures OpenShort(c, upper) == "" <==> !(OpenLower < c < upper) && c >= 0.0
  {
  }

  /** A negative capacitance is a short on both sheets; one from 180 pF up to but excluding
      600 pF is open on the impedance sheet and unclassified on the dongle sheet; one from 0 up
      to 10 pF is unclassified on both. */
  lemma OpenShortSheets(c: real)
    ensures c < 0.0 ==> OpenShort(c, ImpedanceUpper) == "Short" && OpenShort(c, DongleUpper) == "Short"
    ensures DongleUpper <= c < ImpedanceUpper ==>
      OpenShort(c, ImpedanceUpper) == "Open" && OpenShort(c, DongleUpper) == ""
    ensures 0.0 <= c <= OpenLower ==> OpenShort(c, ImpedanceUpper) == "" && OpenShort(c, DongleUpper) == ""
    ensures OpenShort(c, DongleUpper) == "Open" ==> OpenShort(c, ImpedanceUpper) == "Open"
  {
  }

  // ---- pulse-echo sheet ----

  /** Columns D to H of a pulse-echo row: Vpp in mV, bandwidth as a percentage of the centre
      frequency, verdict, dead flag, centre frequency in MHz. */
  datatype PulseEchoCells = PulseEchoCells(vppMilliVolts: real, bandwidthPercent: real, verdict: string,
                                           dead: string, centerMHz: real)

  /** The running sums over contributing rows: Vpp (V), bandwidth (%), centre (MHz), count. */
  datatype PulseEchoTotals = PulseEchoTotals(vpp: real, bandwidthPercent: real, centerMHz: real, count: nat)

  datatype PulseEchoSheet = PulseEchoSheet(cells: seq<Option<PulseEchoCells>>, totals: PulseEchoTotals)

  function BandwidthPercent(row: PulseEchoRow): real
    requires PulseEchoComplete(row) && row.center.value != 0.0
  {
    row.bandwidth.value / row.center.value * 100.0
  }

  function CenterMHz(row: PulseEchoRow): real
    requires PulseEchoComplete(row)
  {
    row.center.value * 0.000001
  }

  /** The cells a row fills in; `None` for a skipped row, whose cells keep their old contents. */
  function PulseEchoRowCells(row: PulseEchoRow): Option<PulseEchoCells>
    requires Divisible(row)
  {
    if !PulseEchoComplete(row) then None
    else Some(PulseEchoCells(row.vpp.value * 1000.0, BandwidthPercent(row), Verdict(row.passed),
                             Dead(row.vpp.value), CenterMHz(row)))
  }

  /** The cells of each row in turn. */
  function PulseEchoCellList(rows: seq<PulseEchoRow>): (cells: seq<Option<PulseEchoCells>>)
    requires AllDivisible(rows)
    ensures |cells| == |rows|
  {
    if rows == [] then [] else PulseEchoCellList(rows[..|rows| - 1]) + [PulseEchoRowCells(rows[|rows| - 1])]
  }

  /** Row k of the sheet gets exactly the cells of slot k. */
  lemma {:induction false} PulseEchoCellListRows(rows: seq<PulseEchoRow>)
    requires AllDivisible(rows)
    ensures forall k :: 0 <= k < |rows| ==> PulseEchoCellList(rows)[k] == PulseEchoRowCells(rows[k])
  {
    if rows != [] {
      PulseEchoCellListRows(rows[..|rows| - 1]);
    }
  }

  /** Adds a row to the running sums when it is complete and passed. */
  function AddPulseEcho(t: PulseEchoTotals, row: PulseEchoRow): PulseEchoTotals
    requires Divisible(row)
  {
    if PulseEchoCounted(row) then
      PulseEchoTotals(t.vpp + row.vpp.value, t.bandwidthPercent + BandwidthPercent(row),
                      t.centerMHz + CenterMHz(row), t.count + 1)
    else t
  }

  function PulseEchoSums(rows: seq<PulseEchoRow>): (t: PulseEchoTotals)
    requires AllDivisible(rows)
    ensures t.count <= |rows|
  {
    if rows == [] then PulseEchoTotals(0.0, 0.0, 0.0, 0)
    else
      var last := rows[|rows| - 1];
      AddPulseEcho(PulseEchoSums(rows[..|rows| - 1]), last)
  }

  lemma PulseEchoSumsSnoc(rows: seq<PulseEchoRow>, last: PulseEchoRow)
    requires AllDivisible(rows) && Divisible(last)
    ensures AllDivisible(rows + [last])
    ensures PulseEchoSums(rows + [last]) == AddPulseEcho(PulseEchoSums(rows), last)
    ensures PulseEchoCellList(rows + [last]) == PulseEchoCellList(rows) + [PulseEchoRowCells(last)]
  {
    assert (rows + [last])[..|rows|] == rows;
  }

  /** `PulseEchoSumsSnoc` for the prefixes a loop over the sheet walks through. */
  lemma PulseEchoPrefixStep(rows: seq<PulseEchoRow>, i: nat)
    requires i < |rows| && AllDivisible(rows[..i]) && Divisible(rows[i])
    ensures AllDivisible(rows[..i + 1])
    ensures PulseEchoSums(rows[..i + 1]) == AddPulseEcho(PulseEchoSums(rows[..i]), rows[i])
    ensures PulseEchoCellList(rows[..i + 1]) == PulseEchoCellList(rows[..i]) + [PulseEchoRowCells(rows[i])]
  {
    assert rows[..i + 1] == rows[..i] + [rows[i]];
    PulseEchoSumsSnoc(rows[..i], rows[i]);
  }

  /** The rows that pass and are complete, in their original order. */
  function PassingPulseEcho(rows: seq<PulseEchoRow>): (p: seq<PulseEchoRow>)
    ensures |p| <= |rows|
    ensures forall row :: row in p <==> row in rows && PulseEchoCounted(row)
  {
    if rows == [] then []
    else
      var init := rows[..|rows| - 1];
      assert rows == init + [rows[|rows| - 1]];
      if PulseEchoCounted(rows[|rows| - 1]) then PassingPulseEcho(init) + [rows[|rows| - 1]]
      else PassingPulseEcho(init)
  }

  /** Only passing rows feed the averages: the sums over a sheet equal the sums over its
      passing rows alone, and the sample count is the number of passing rows. */
  lemma {:induction false} PulseEchoSumsPassing(rows: seq<PulseEchoRow>)
    requires AllDivisible(rows)
    ensures AllDivisible(PassingPulseEcho(rows))
    ensures PulseEchoSums(rows) == PulseEchoSums(PassingPulseEcho(rows))
    ensures PulseEchoSums(rows).count == |PassingPulseEcho(rows)|
  {
    if rows != [] {
      var init, last := rows[..|rows| - 1], rows[|rows| - 1];
      assert last in rows;
      assert AllDivisible(init) by {
        forall row | row in init ensures Divisible(row) {
          assert row in rows;
        }
      }
      PulseEchoSumsPassing(init);
      if PulseEchoCounted(last) {
        PulseEchoSumsSnoc(PassingPulseEcho(init), last);
      }
    }
  }

  /** Visits rows `0 .. mc-1` of the pulse-echo slots in order. A row holding `None` is
      skipped; a complete row with a zero centre frequency raises `ZeroDivisionError`; running
      past the end of the slots raises `IndexError`, whichever comes first. */
  method FillPulseEcho(rows: seq<PulseEchoRow>, mc: int) returns (r: Result<PulseEchoSheet, PyError>)
    ensures r == Failure(ZeroDivisionError) <==>
      exists k :: 0 <= k < RowCount(mc) && k < |rows| && !Divisible(rows[k])
    ensures r == Failure(IndexError) <==> RowCount(mc) > |rows| && AllDivisible(rows)
    ensures r.Success? ==> var n := RowCount(mc);
      && n <= |rows| && AllDivisible(rows[..n])
      && r.value.cells == PulseEchoCellList(rows[..n])
      && r.value.totals == PulseEchoSums(rows[..n])
  {
    var n := RowCount(mc);
    var cells: seq<Option<PulseEchoCells>> := [];
    var totals := PulseEchoTotals(0.0, 0.0, 0.0, 0);
    var i := 0;
    while i < n
      invariant i <= n && i <= |rows|
      invariant AllDivisible(rows[..i])
      invariant cells == PulseEchoCellList(rows[..i])
      invariant totals == PulseEchoSums(rows[..i])
    {
      if i == |rows| {
        assert rows[..i] == rows;
        return Failure(IndexError);
      }
      var row := rows[i];
      ghost var before := totals;
      var cell: Option<PulseEchoCells> := None;
      if PulseEchoComplete(row) {
        if row.center.value == 0.0 {
          return Failure(ZeroDivisionError);
        }
        var bandwidth := BandwidthPercent(row);
        var center := CenterMHz(row);
        cell := Some(PulseEchoCells(row.vpp.value * 1000.0, bandwidth, Verdict(row.passed),
                                    Dead(row.vpp.value), center));
        if row.passed {
          totals := PulseEchoTotals(totals.vpp + row.vpp.value, totals.bandwidthPercent + bandwidth,
                                    totals.centerMHz + center, totals.count + 1);
        }
      }
      assert cell == PulseEchoRowCells(row);
      assert totals == AddPulseEcho(before, row);
      cells := cells + [cell];
      PulseEchoPrefixStep(rows, i);
      i := i + 1;
    }
    r := Success(PulseEchoSheet(cells, totals));
  }

  // ---- impedance and dongle sheets ----

  /** Columns D to F of an impedance row: capacitance in pF, then the verdict (written over the
      impedance value the same column first received), then Open/Short with a 600 pF bound. */
  datatype ImpedanceCells = ImpedanceCells(capacitancePF: real, verdict: string, openShort: string)

  /** Columns D to G of a dongle row: capacitance in pF, impedance, verdict, Open/Short with a
      180 pF bound. */
  datatype DongleCells = DongleCells(capacitancePF: real, impedance: real, verdict: string, openShort: string)

  /** The running sums over contributing rows: capacitance (F), impedance (ohm), count. */
  datatype CapacitanceTotals = CapacitanceTotals(capacitance: real, impedance: real, count: nat)

  datatype ImpedanceSheet = ImpedanceSheet(cells: seq<Option<ImpedanceCells>>, totals: CapacitanceTotals)
  datatype DongleSheet = DongleSheet(cells: seq<Option<DongleCells>>, totals: CapacitanceTotals)

  function PicoFarads(c: real): real
  {
    c * 1000000000000.0
  }

  function ImpedanceRowCells(row: CapacitanceRow): Option<ImpedanceCells>
  {
    if !CapacitanceComplete(row) then None
    else Some(ImpedanceCells(PicoFarads(row.capacitance.value), Verdict(row.passed),
                             OpenShort(row.capacitance.value, ImpedanceUpper)))
  }

  function DongleRowCells(row: CapacitanceRow): Option<DongleCells>
  {
    if !CapacitanceComplete(row) then None
    else Some(DongleCells(PicoFarads(row.capacitance.value), row.impedance.value, Verdict(row.passed),
                          OpenShort(row.capacitance.value, DongleUpper)))
  }

  /** The impedance-sheet cells of each row in turn. */
  function ImpedanceCellList(rows: seq<CapacitanceRow>): (cells: seq<Option<ImpedanceCells>>)
    ensures |cells| == |rows|
  {
    if rows == [] then [] else ImpedanceCellList(rows[..|rows| - 1]) + [ImpedanceRowCells(rows[|rows| - 1])]
  }

  /** Row k of the sheet gets exactly the cells of slot k. */
  lemma {:induction false} ImpedanceCellListRows(rows: seq<CapacitanceRow>)
    ensures forall k :: 0 <= k < |rows| ==> ImpedanceCellList(rows)[k] == ImpedanceRowCells(rows[k])
  {
    if rows != [] {
      ImpedanceCellListRows(rows[..|rows| - 1]);
    }
  }

  /** The dongle-sheet cells of each row in turn. */
  function DongleCellList(rows: seq<CapacitanceRow>): (cells: seq<Option<DongleCells>>)
    ensures |cells| == |rows|
  {
    if rows == [] then [] else DongleCellList(rows[..|rows| - 1]) + [DongleRowCells(rows[|rows| - 1])]
  }

  /** Row k of the sheet gets exactly the cells of slot k. */
  lemma {:induction false} DongleCellListRows(rows: seq<CapacitanceRow>)
    ensures forall k :: 0 <= k < |rows| ==> DongleCellList(rows)[k] == DongleRowCells(rows[k])
  {
    if rows != [] {
      DongleCellListRows(rows[..|rows| - 1]);
    }
  }

  /** Adds a row to the running sums when it is complete and passed. */
  function AddCapacitance(t: CapacitanceTotals, row: CapacitanceRow): CapacitanceTotals
  {
    if CapacitanceCounted(row) then
      CapacitanceTotals(t.capacitance + row.capacitance.value, t.impedance + row.impedance.value, t.count + 1)
    else t
  }

  function CapacitanceSums(rows: seq<CapacitanceRow>): (t: CapacitanceTotals)
    ensures t.count <= |rows|
  {
    if rows == [] then CapacitanceTotals(0.0, 0.0, 0)
    else AddCapacitance(CapacitanceSums(rows[..|rows| - 1]), rows[|rows| - 1])
  }

  lemma CapacitanceSumsSnoc(rows: seq<CapacitanceRow>, last: CapacitanceRow)
    ensures CapacitanceSums(rows + [last]) == AddCapacitance(CapacitanceSums(rows), last)
    ensures ImpedanceCellList(rows + [last]) == ImpedanceCellList(rows) + [ImpedanceRowCells(last)]
    ensures DongleCellList(rows + [last]) == DongleCellList(rows) + [DongleRowCells(last)]
  {
    assert (rows + [last])[..|rows|] == rows;
  }

  /** `CapacitanceSumsSnoc` for the prefixes a loop over the sheet walks through. */
  lemma CapacitancePrefixStep(rows: seq<CapacitanceRow>, i: nat)
    requires i < |rows|
    ensures CapacitanceSums(rows[..i + 1]) == AddCapacitance(CapacitanceSums(rows[..i]), rows[i])
    ensures ImpedanceCellList(rows[..i + 1]) == ImpedanceCellList(rows[..i]) + [ImpedanceRowCells(rows[i])]
    ensures DongleCellList(rows[..i + 1]) == DongleCellList(rows[..i]) + [DongleRowCells(rows[i])]
  {
    assert rows[..i + 1] == rows[..i] + [rows[i]];
    CapacitanceSumsSnoc(rows[..i], rows[i]);
  }

  function PassingCapacitance(rows: seq<CapacitanceRow>): (p: seq<CapacitanceRow>)
    ensures |p| <= |rows|
    ensures forall row :: row in p <==> row in rows && CapacitanceCounted(row)
  {
    if rows == [] then []
    else
      var init := rows[..|rows| - 1];
      assert rows == init + [rows[|rows| - 1]];
      if CapacitanceCounted(rows[|rows| - 1]) then PassingCapacitance(init) + [rows[|rows| - 1]]
      else PassingCapacitance(init)
  }

  /** As for pulse echo: only passing complete rows feed the sums, and the count is their number. */
  lemma {:induction false} CapacitanceSumsPassing(rows: seq<CapacitanceRow>)
    ensures CapacitanceSums(rows) == CapacitanceSums(PassingCapacitance(rows))
    ensures CapacitanceSums(rows).count == |PassingCapacitance(rows)|
  {
    if rows != [] {
      var init, last := rows[..|rows| - 1], rows[|rows| - 1];
      CapacitanceSumsPassing(init);
      if CapacitanceCounted(last) {
        CapacitanceSumsSnoc(PassingCapacitance(init), last);
      }
    }
  }

  /** Visits rows `0 .. mc-1` of the impedance slots; only running past the end raises. */
  method FillImpedance(rows: seq<CapacitanceRow>, mc: int) returns (r: Result<ImpedanceSheet, PyError>)
    ensures r.Failure? <==> RowCount(mc) > |rows|
    ensures r.Failure? ==> r.error == IndexError
    ensures r.Success? ==> var n := RowCount(mc);
      && r.value.cells == ImpedanceCellList(rows[..n])
      && r.value.totals == CapacitanceSums(rows[..n])
  {
    var n := RowCount(mc);
    var cells: seq<Option<ImpedanceCells>> := [];
    var totals := CapacitanceTotals(0.0, 0.0, 0);
    var i := 0;
    while i < n
      invariant i <= n && i <= |rows|
      invariant cells == ImpedanceCellList(rows[..i])
      invariant totals == CapacitanceSums(rows[..i])
    {
      if i == |rows| {
        return Failure(IndexError);
      }
      var row := rows[i];
      ghost var before := totals;
      var cell: Option<ImpedanceCells> := None;
      if CapacitanceComplete(row) {
        var c := row.capacitance.value;
        cell := Some(ImpedanceCells(PicoFarads(c), Verdict(row.passed), OpenShort(c, ImpedanceUpper)));
        if row.passed {
          totals := CapacitanceTotals(totals.capacitance + c, totals.impedance + row.impedance.value, totals.count + 1);
        }
      }
      assert cell == ImpedanceRowCells(row);
      assert totals == AddCapacitance(before, row);
      cells := cells + [cell];
      CapacitancePrefixStep(rows, i);
      i := i + 1;
    }
    r := Success(ImpedanceSheet(cells, totals));
  }

  /** Visits rows `0 .. mc-1` of the dongle slots; only running past the end raises. */
  method FillDongle(rows: seq<CapacitanceRow>, mc: int) returns (r: Result<DongleSheet, PyError>)
    ensures r.Failure? <==> RowCount(mc) > |rows|
    ensures r.Failure? ==> r.error == IndexError
    ensures r.Success? ==> var n := RowCount(mc);
      && r.value.cells == DongleCellList(rows[..n])
      && r.value.totals == CapacitanceSums(rows[..n])
  {
    var n := RowCount(mc);
    var cells: seq<Option<DongleCells>> := [];
    var totals := CapacitanceTotals(0.0, 0.0, 0);
    var i := 0;
    while i < n
      invariant i <= n && i <= |rows|
      invariant cells == DongleCellList(rows[..i])
      invariant totals == CapacitanceSums(rows[..i])
    {
      if i == |rows| {
        return Failure(IndexError);
      }
      var row := rows[i];
      ghost var before := totals;
      var cell: Option<DongleCells> := None;
      if CapacitanceComplete(row) {
        var c := row.capacitance.value;
        cell := Some(DongleCells(PicoFarads(c), row.impedance.value, Verdict(row.passed), OpenShort(c, DongleUpper)));
        if row.passed {
          totals := CapacitanceTotals(totals.capacitance + c, totals.impedance + row.impedance.value, totals.count + 1);
        }
      }
      assert cell == DongleRowCells(row);
      assert totals == AddCapacitance(before, row);
      cells := cells + [cell];
      CapacitancePrefixStep(rows, i);
      i := i + 1;
    }
    r := Success(DongleSheet(cells, totals));
  }
}
