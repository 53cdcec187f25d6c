/** The bookkeeping of `TesterFrontEnd` in src/SoundCath.py: the channel stepper behind the Up
    and Down buttons, and `RunTests` with its results map (`passmap`) and the stoppable loop over
    all channels. The widgets, the worker thread and the test instruments are not part of this
    model; what the instruments report is a parameter. */
module FrontEnd {
  import opened Wrappers
  import opened Decimal
  import opened PySeq
  import opened Report

  /** The text of the channel label: channels are shown counting from one. */
  function Label(channel: int): string
  {
    "Channel " + IntToString(channel + 1)
  }

  /** The label reads back as the channel number plus one, so distinct channels get
      distinct labels. */
  lemma LabelShowsChannel(channel: int)
    ensures |Label(channel)| > 8 && Label(channel)[..8] == "Channel "
    ensures ParseInt(Label(channel)[8..]) == Some(channel + 1)
    ensures forall other :: Label(other) == Label(channel) ==> other == channel
  {
    var digits := IntToString(channel + 1);
    assert Label(channel)[8..] == digits;
    IntToStringRoundTrip(channel + 1);
    forall other | Label(other) == Label(channel)
      ensures other == channel
    {
      assert Label(other)[8..] == IntToString(other + 1);
      IntToStringRoundTrip(other + 1);
    }
  }

  // ---- results map ----

  datatype TestKind = PulseEcho | Impedance | Dongle

  /** One call into a test instrument, for one channel. */
  datatype TestRun = TestRun(kind: TestKind, channel: int)

  /** Which of the three test check boxes are ticked. */
  datatype Selection = Selection(pulseEcho: bool, impedance: bool, dongle: bool)

  predicate AnySelected(sel: Selection)
  {
    sel.pulseEcho || sel.impedance || sel.dongle
  }

  /** What the instruments report for a channel: a row, or the exception the test raises. */
  datatype Instruments = Instruments(pulseEcho: int -> Result<PulseEchoRow, PyError>,
                                     impedance: int -> Result<CapacitanceRow, PyError>,
                                     dongle: int -> Result<CapacitanceRow, PyError>)

  /** The exception the test `kind` raises on channel c, if it raises one. */
  function Raised(inst: Instruments, kind: TestKind, c: int): Option<PyError>
  {
    match kind
    case PulseEcho => if inst.pulseEcho(c).Failure? then Some(inst.pulseEcho(c).error) else None
    case Impedance => if inst.impedance(c).Failure? then Some(inst.impedance(c).error) else None
    case Dongle => if inst.dongle(c).Failure? then Some(inst.dongle(c).error) else None
  }

  /** Every selected test reports a row for channel c. */
  predicate ChannelSucceeds(sel: Selection, inst: Instruments, c: int)
  {
    && (sel.pulseEcho ==> inst.pulseEcho(c).Success?)
    && (sel.impedance ==> inst.impedance(c).Success?)
    && (sel.dongle ==> inst.dongle(c).Success?)
  }

  /** The three lists of slots, one slot per channel. */
  datatype PassMap = PassMap(impedance: seq<CapacitanceRow>, pulseEcho: seq<PulseEchoRow>, dongle: seq<CapacitanceRow>)

  /** What a run leaves behind: the slots, the tests that were run in order, and the exception
      that ended it, if any. */
  datatype Outcome = Outcome(passmap: PassMap, runs: seq<TestRun>, error: Option<PyError>)

  function ResultOf(o: Outcome): Result<(), PyError>
  {
    if o.error.Some? then Failure(o.error.value) else Success(())
  }

  /** The results map a run starts from: `mc` empty slots per kind (none when mc <= 0). */
  function InitialPassMap(mc: int): (pm: PassMap)
    ensures |pm.impedance| == |pm.pulseEcho| == |pm.dongle| == RowCount(mc)
    ensures forall k :: 0 <= k < RowCount(mc) ==>
      pm.impedance[k] == EmptyCapacitance && pm.dongle[k] == EmptyCapacitance && pm.pulseEcho[k] == EmptyPulseEcho
  {
    var n := RowCount(mc);
    PassMap(seq(n, _ => EmptyCapacitance), seq(n, _ => EmptyPulseEcho), seq(n, _ => EmptyCapacitance))
  }

  /** `slots[channel - 1] = v` in Python, or `None` where it raises `IndexError`. */
  function Store<T>(slots: seq<T>, channel: int, v: T): Option<seq<T>>
  {
    match Index(channel - 1, |slots|)
    case None => None
    case Some(k) => Some(slots[k := v])
  }

  /** The number of slots kept for `kind`. */
  function SlotCount(pm: PassMap, kind: TestKind): nat
  {
    match kind
    case PulseEcho => |pm.pulseEcho|
    case Impedance => |pm.impedance|
    case Dongle => |pm.dongle|
  }

  /** The test `kind` on channel c reports a row and the row's slot exists. */
  predicate KindOk(pm: PassMap, inst: Instruments, c: int, kind: TestKind)
  {
    Raised(inst, kind, c).None? && Index(c - 1, SlotCount(pm, kind)).Some?
  }

  /** What a test that does not complete raises: its own exception, or else `IndexError` from
      the store. */
  function KindError(inst: Instruments, c: int, kind: TestKind): PyError
  {
    if Raised(inst, kind, c).Some? then Raised(inst, kind, c).value else IndexError
  }

  /** How many of `kinds`, taken in order, complete on channel c before the first that does not. */
  function Completed(pm: PassMap, inst: Instruments, c: int, kinds: seq<TestKind>): (t: nat)
    ensures t <= |kinds|
    ensures forall u :: 0 <= u < t ==> KindOk(pm, inst, c, kinds[u])
    ensures t < |kinds| ==> !KindOk(pm, inst, c, kinds[t])
  {
    if kinds == [] || !KindOk(pm, inst, c, kinds[0]) then 0 else 1 + Completed(pm, inst, c, kinds[1..])
  }

  /** Channel c goes to slot c - 1, and channel 0 to the last slot; every other slot is kept. */
  lemma StoreSlot<T>(slots: seq<T>, channel: int, v: T)
    ensures Store(slots, channel, v).Some? <==> 1 - |slots| <= channel <= |slots|
    ensures 1 <= channel <= |slots| ==> Store(slots, channel, v) == Some(slots[channel - 1 := v])
    ensures channel == 0 && slots != [] ==> Store(slots, channel, v) == Some(slots[|slots| - 1 := v])
  {
  }

  function StorePulseEcho(o: Outcome, c: int, row: Result<PulseEchoRow, PyError>): Outcome
  {
    if o.error.Some? then o
    else
      var runs := o.runs + [TestRun(PulseEcho, c)];
      if row.Failure? then Outcome(o.passmap, runs, Some(row.error))
      else match Store(o.passmap.pulseEcho, c, row.value)
      case None => Outcome(o.passmap, runs, Some(IndexError))
      case Some(s) => Outcome(o.passmap.(pulseEcho := s), runs, None)
  }

  function StoreImpedance(o: Outcome, c: int, row: Result<CapacitanceRow, PyError>): Outcome
  {
    if o.error.Some? then o
    else
      var runs := o.runs + [TestRun(Impedance, c)];
      if row.Failure? then Outcome(o.passmap, runs, Some(row.error))
      else match Store(o.passmap.impedance, c, row.value)
      case None => Outcome(o.passmap, runs, Some(IndexError))
      case Some(s) => Outcome(o.passmap.(impedance := s), runs, None)
  }

  function StoreDongle(o: Outcome, c: int, row: Result<CapacitanceRow, PyError>): Outcome
  {
    if o.error.Some? then o
    else
      var runs := o.runs + [TestRun(Dongle, c)];
      if row.Failure? then Outcome(o.passmap, runs, Some(row.error))
      else match Store(o.passmap.dongle, c, row.value)
      case None => Outcome(o.passmap, runs, Some(IndexError))
      case Some(s) => Outcome(o.passmap.(dongle := s), runs, None)
  }

  /** One channel: each selected test runs and its result is stored, pulse echo first, then
      impedance, then dongle. A test runs before the store that may raise, and the first
      exception, from a test or a store, ends the channel. */
  function RunChannel(pm: PassMap, sel: Selection, inst: Instruments, c: int): Outcome
  {
    var o := FirstTwo(pm, sel, inst, c);
    if sel.dongle then StoreDongle(o, c, inst.dongle(c)) else o
  }

  /** The pulse-echo and impedance steps of a channel. */
  function FirstTwo(pm: PassMap, sel: Selection, inst: Instruments, c: int): Outcome
  {
    var o := Outcome(pm, [], None);
    var o := if sel.pulseEcho then StorePulseEcho(o, c, inst.pulseEcho(c)) else o;
    if sel.impedance then StoreImpedance(o, c, inst.impedance(c)) else o
  }

  /** The selected kinds, in the order a channel runs them. */
  function SelectedKinds(sel: Selection): seq<TestKind>
  {
    FirstTwoKinds(sel) + (if sel.dongle then [Dongle] else [])
  }

  function FirstTwoKinds(sel: Selection): seq<TestKind>
  {
    (if sel.pulseEcho then [PulseEcho] else []) + (if sel.impedance then [Impedance] else [])
  }

  /** One run per kind, in order, all on channel c. */
  function Runs(kinds: seq<TestKind>, c: int): seq<TestRun>
  {
    seq(|kinds|, i requires 0 <= i < |kinds| => TestRun(kinds[i], c))
  }

  function ChannelRuns(sel: Selection, c: int): seq<TestRun>
  {
    Runs(SelectedKinds(sel), c)
  }

  /** The selected test `kind` on channel c, as one step of a channel. */
  function StoreKind(o: Outcome, inst: Instruments, c: int, kind: TestKind): Outcome
  {
    match kind
    case PulseEcho => StorePulseEcho(o, c, inst.pulseEcho(c))
    case Impedance => StoreImpedance(o, c, inst.impedance(c))
    case Dongle => StoreDongle(o, c, inst.dongle(c))
  }

  /** A slot list after a channel: when that kind's test completed, the row it reported is
      stored at Python index c - 1; otherwise the list is unchanged. */
  predicate SlotsAfter<T(==)>(before: seq<T>, after: seq<T>, done: bool, c: int, row: Result<T, PyError>)
  {
    if done then row.Success? && Store(before, c, row.value) == Some(after) else after == before
  }

  /** What running `kinds` in order on channel c leaves behind, starting from the map `pm`: the
      tests up to the first that does not complete have run, that one's exception is the
      outcome's, each completed kind's slot list has its row at Python index c - 1, and every
      other slot list is unchanged. */
  predicate RanKinds(pm: PassMap, inst: Instruments, c: int, kinds: seq<TestKind>, o: Outcome)
  {
    var t := Completed(pm, inst, c, kinds);
    var done := kinds[..t];
    && o.runs == Runs(kinds, c)[..if t < |kinds| then t + 1 else t]
    && o.error == (if t < |kinds| then Some(KindError(inst, c, kinds[t])) else None)
    && SlotsAfter(pm.pulseEcho, o.passmap.pulseEcho, PulseEcho in done, c, inst.pulseEcho(c))
    && SlotsAfter(pm.impedance, o.passmap.impedance, Impedance in done, c, inst.impedance(c))
    && SlotsAfter(pm.dongle, o.passmap.dongle, Dongle in done, c, inst.dongle(c))
  }

  /** Completing one more kind extends the completed prefix only when all earlier ones completed. */
  lemma {:induction false} CompletedSnoc(pm: PassMap, inst: Instruments, c: int, kinds: seq<TestKind>, kind: TestKind)
    ensures var t := Completed(pm, inst, c, kinds);
      Completed(pm, inst, c, kinds + [kind])
        == if t < |kinds| || !KindOk(pm, inst, c, kind) then t else t + 1
  {
    if kinds != [] {
      assert (kinds + [kind])[1..] == kinds[1..] + [kind];
      CompletedSnoc(pm, inst, c, kinds[1..], kind);
    }
  }

  /** Running one more kind, not run before, keeps `RanKinds`. */
  lemma RanKindsStep(pm: PassMap, inst: Instruments, c: int, kinds: seq<TestKind>, o: Outcome, kind: TestKind)
    requires RanKinds(pm, inst, c, kinds, o) && kind !in kinds
    ensures RanKinds(pm, inst, c, kinds + [kind], StoreKind(o, inst, c, kind))
  {
    CompletedSnoc(pm, inst, c, kinds, kind);
    if Completed(pm, inst, c, kinds) < |kinds| {
      RaisedStep(pm, inst, c, kinds, o, kind);
    } else {
      assert kinds[..|kinds|] == kinds;
      match kind
      case PulseEcho => PulseEchoStep(pm, inst, c, kinds, o);
      case Impedance => ImpedanceStep(pm, inst, c, kinds, o);
      case Dongle => DongleStep(pm, inst, c, kinds, o);
    }
  }

  /** After an exception, a further kind neither runs nor changes anything. */
  lemma RaisedStep(pm: PassMap, inst: Instruments, c: int, kinds: seq<TestKind>, o: Outcome, kind: TestKind)
    requires RanKinds(pm, inst, c, kinds, o) && Completed(pm, inst, c, kinds) < |kinds|
    ensures RanKinds(pm, inst, c, kinds + [kind], StoreKind(o, inst, c, kind))
  {
    var t := Completed(pm, inst, c, kinds);
    var ks := kinds + [kind];
    CompletedSnoc(pm, inst, c, kinds, kind);
    assert ks[..t] == kinds[..t];
    assert ks[t] == kinds[t];
    assert Runs(ks, c)[..t + 1] == Runs(kinds, c)[..t + 1];
  }

  /** The runs of `kinds + [kind]` once every kind of `kinds` has completed. */
  lemma AllRunsStep(kinds: seq<TestKind>, kind: TestKind, c: int, runs: seq<TestRun>)
    requires runs == Runs(kinds, c)[..|kinds|]
    ensures runs + [TestRun(kind, c)] == Runs(kinds + [kind], c)[..|kinds| + 1]
    ensures runs + [TestRun(kind, c)] == Runs(kinds + [kind], c)
  {
    assert Runs(kinds, c)[..|kinds|] == Runs(kinds, c);
    assert Runs(kinds + [kind], c) == Runs(kinds, c) + [TestRun(kind, c)];
  }

  /** Once every kind of `kinds` has completed, the completed kinds of `kinds + [kind]` are
      `kinds` with `kind` added exactly when it completes too. */
  lemma DoneStep(pm: PassMap, inst: Instruments, c: int, kinds: seq<TestKind>, kind: TestKind)
    requires Completed(pm, inst, c, kinds) == |kinds| && kind !in kinds
    ensures var ks := kinds + [kind];
      var t := Completed(pm, inst, c, ks);
      && kinds[..|kinds|] == kinds
      && t == (if KindOk(pm, inst, c, kind) then |ks| else |kinds|)
      && (t < |ks| ==> ks[t] == kind)
      && (kind in ks[..t] <==> KindOk(pm, inst, c, kind))
      && (forall other :: other != kind ==> (other in ks[..t] <==> other in kinds))
  {
    var ks := kinds + [kind];
    CompletedSnoc(pm, inst, c, kinds, kind);
    assert kinds[..|kinds|] == kinds && ks[..|ks|] == ks && ks[..|kinds|] == kinds;
  }

  lemma PulseEchoStep(pm: PassMap, inst: Instruments, c: int, kinds: seq<TestKind>, o: Outcome)
    requires RanKinds(pm, inst, c, kinds, o) && PulseEcho !in kinds && Completed(pm, inst, c, kinds) == |kinds|
    ensures RanKinds(pm, inst, c, kinds + [PulseEcho], StoreKind(o, inst, c, PulseEcho))
  {
    var ks := kinds + [PulseEcho];
    CompletedSnoc(pm, inst, c, kinds, PulseEcho);
    AllRunsStep(kinds, PulseEcho, c, o.runs);
    DoneStep(pm, inst, c, kinds, PulseEcho);
  }

  lemma ImpedanceStep(pm: PassMap, inst: Instruments, c: int, kinds: seq<TestKind>, o: Outcome)
    requires RanKinds(pm, inst, c, kinds, o) && Impedance !in kinds && Completed(pm, inst, c, kinds) == |kinds|
    ensures RanKinds(pm, inst, c, kinds + [Impedance], StoreKind(o, inst, c, Impedance))
  {
    var ks := kinds + [Impedance];
    CompletedSnoc(pm, inst, c, kinds, Impedance);
    AllRunsStep(kinds, Impedance, c, o.runs);
    DoneStep(pm, inst, c, kinds, Impedance);
  }

  lemma DongleStep(pm: PassMap, inst: Instruments, c: int, kinds: seq<TestKind>, o: Outcome)
    requires RanKinds(pm, inst, c, kinds, o) && Dongle !in kinds && Completed(pm, inst, c, kinds) == |kinds|
    ensures RanKinds(pm, inst, c, kinds + [Dongle], StoreKind(o, inst, c, Dongle))
  {
    var ks := kinds + [Dongle];
    CompletedSnoc(pm, inst, c, kinds, Dongle);
    AllRunsStep(kinds, Dongle, c, o.runs);
    DoneStep(pm, inst, c, kinds, Dongle);
  }

  lemma FirstTwoEffect(pm: PassMap, sel: Selection, inst: Instruments, c: int)
    ensures RanKinds(pm, inst, c, FirstTwoKinds(sel), FirstTwo(pm, sel, inst, c))
  {
    var o0 := Outcome(pm, [], None);
    assert RanKinds(pm, inst, c, [], o0);
    var p := if sel.pulseEcho then [PulseEcho] else [];
    var o1 := if sel.pulseEcho then StoreKind(o0, inst, c, PulseEcho) else o0;
    if sel.pulseEcho {
      RanKindsStep(pm, inst, c, [], o0, PulseEcho);
      assert [] + [PulseEcho] == p;
    }
    var q := p + (if sel.impedance then [Impedance] else []);
    var o2 := if sel.impedance then StoreKind(o1, inst, c, Impedance) else o1;
    if sel.impedance {
      RanKindsStep(pm, inst, c, p, o1, Impedance);
    } else {
      assert q == p;
    }
    assert RanKinds(pm, inst, c, q, o2);
    assert q == FirstTwoKinds(sel) && o2 == FirstTwo(pm, sel, inst, c);
  }

  /** One channel on any results map runs its selected kinds as `RanKinds` describes. */
  lemma RunChannelEffect(pm: PassMap, sel: Selection, inst: Instruments, c: int)
    ensures RanKinds(pm, inst, c, SelectedKinds(sel), RunChannel(pm, sel, inst, c))
  {
    var q, o2 := FirstTwoKinds(sel), FirstTwo(pm, sel, inst, c);
    FirstTwoEffect(pm, sel, inst, c);
    if sel.dongle {
      RanKindsStep(pm, inst, c, q, o2, Dongle);
      assert StoreKind(o2, inst, c, Dongle) == RunChannel(pm, sel, inst, c);
    } else {
      assert q + [] == q;
    }
  }

  /** The tests run by an all-channels loop that reached channels 0 .. k-1. */
  function SweepRuns(sel: Selection, k: nat): seq<TestRun>
  {
    if k == 0 then [] else SweepRuns(sel, k - 1) + ChannelRuns(sel, k - 1)
  }

  /** A list of `mc` slots after channels 0 .. reached-1 have stored the row `result(c)` reports
      at index c - 1: slot j holds the row of channel (j + 1) % mc if that channel was reached. */
  function Slots<T>(mc: nat, reached: nat, empty: T, result: int -> Result<T, PyError>): (s: seq<T>)
    ensures |s| == mc
  {
    seq(mc, j requires 0 <= j < mc =>
      if (j + 1) % mc < reached && result((j + 1) % mc).Success? then result((j + 1) % mc).value else empty)
  }

  /** The results map after an all-channels loop that reached channels 0 .. k-1. */
  function Recorded(mc: int, sel: Selection, inst: Instruments, k: nat): PassMap
  {
    var n := RowCount(mc);
    PassMap(Slots(n, if sel.impedance then k else 0, EmptyCapacitance, inst.impedance),
            Slots(n, if sel.pulseEcho then k else 0, EmptyPulseEcho, inst.pulseEcho),
            Slots(n, if sel.dongle then k else 0, EmptyCapacitance, inst.dongle))
  }

  lemma InitialRecorded(mc: int, sel: Selection, inst: Instruments)
    ensures InitialPassMap(mc) == Recorded(mc, sel, inst, 0)
  {
    var n := RowCount(mc);
    assert InitialPassMap(mc).impedance == Slots(n, 0, EmptyCapacitance, inst.impedance);
    assert InitialPassMap(mc).pulseEcho == Slots(n, 0, EmptyPulseEcho, inst.pulseEcho);
    assert InitialPassMap(mc).dongle == Slots(n, 0, EmptyCapacitance, inst.dongle);
  }

  /** Storing channel k's result into the slots of channels 0 .. k-1 gives the slots of channels
      0 .. k. */
  lemma StoreNext<T>(mc: nat, k: nat, empty: T, result: int -> Result<T, PyError>)
    requires k < mc && result(k).Success?
    ensures Store(Slots(mc, k, empty, result), k, result(k).value) == Some(Slots(mc, k + 1, empty, result))
  {
    var s, t := Slots(mc, k, empty, result), Slots(mc, k + 1, empty, result);
    var idx := if k == 0 then mc - 1 else k - 1;
    assert Index(k - 1, mc) == Some(idx);
    var u := s[idx := result(k).value];
    forall j | 0 <= j < mc
      ensures u[j] == t[j]
    {
      NextChannel(mc, j);
      assert (j + 1) % mc == k <==> j == idx;
    }
    assert u == t;
  }

  /** Slot j belongs to channel j + 1, except the last slot, which belongs to channel 0. */
  lemma NextChannel(mc: nat, j: nat)
    requires j < mc
    ensures (j + 1) % mc == if j + 1 < mc then j + 1 else 0
  {
  }

  /** One more channel of the all-channels loop: every slot exists, so the channel raises
      exactly when one of its selected tests does, and otherwise it fills in its own slots and
      no others. */
  lemma {:induction false} RecordStep(mc: int, sel: Selection, inst: Instruments, k: nat)
    requires k < RowCount(mc)
    ensures var o := RunChannel(Recorded(mc, sel, inst, k), sel, inst, k);
      && (o.error.None? <==> ChannelSucceeds(sel, inst, k))
      && (ChannelSucceeds(sel, inst, k) ==> o == Outcome(Recorded(mc, sel, inst, k + 1), ChannelRuns(sel, k), None))
  {
    var n := RowCount(mc);
    var o := RunChannel(Recorded(mc, sel, inst, k), sel, inst, k);
    assert Index(k - 1, n).Some?;
    if ChannelSucceeds(sel, inst, k) {
      if sel.pulseEcho {
        StoreNext(n, k, EmptyPulseEcho, inst.pulseEcho);
      }
      if sel.impedance {
        StoreNext(n, k, EmptyCapacitance, inst.impedance);
      }
      if sel.dongle {
        StoreNext(n, k, EmptyCapacitance, inst.dongle);
      }
      assert o.passmap == Recorded(mc, sel, inst, k + 1);
      assert o.runs == ChannelRuns(sel, k);
    }
  }

  /** Slot j of each list holds the row channel c reported if that kind is selected, and is
      still empty if it is not. */
  predicate SlotHolds(pm: PassMap, sel: Selection, inst: Instruments, j: nat, c: int)
  {
    && j < |pm.pulseEcho| && j < |pm.impedance| && j < |pm.dongle|
    && (if sel.pulseEcho then inst.pulseEcho(c) == Success(pm.pulseEcho[j]) else pm.pulseEcho[j] == EmptyPulseEcho)
    && (if sel.impedance then inst.impedance(c) == Success(pm.impedance[j]) else pm.impedance[j] == EmptyCapacitance)
    && (if sel.dongle then inst.dongle(c) == Success(pm.dongle[j]) else pm.dongle[j] == EmptyCapacitance)
  }

  /** After the loop has visited every channel, slot j holds channel j + 1's result and the
      last slot holds channel 0's, for each selected kind; an unselected kind keeps its empty
      slots. */
  lemma FullRunSlots(mc: int, sel: Selection, inst: Instruments)
    requires mc >= 1
    requires forall c :: 0 <= c < mc ==> ChannelSucceeds(sel, inst, c)
    ensures var pm := Recorded(mc, sel, inst, mc);
      && (forall j, c :: 0 <= j < mc - 1 && c == j + 1 ==> SlotHolds(pm, sel, inst, j, c))
      && SlotHolds(pm, sel, inst, mc - 1, 0)
  {
    var pm := Recorded(mc, sel, inst, mc);
    NextChannel(mc, mc - 1);
    assert ChannelSucceeds(sel, inst, 0);
    forall j, c | 0 <= j < mc - 1 && c == j + 1
      ensures SlotHolds(pm, sel, inst, j, c)
    {
      NextChannel(mc, j);
      assert ChannelSucceeds(sel, inst, j + 1);
    }
  }

  /** One channel's runs: every selected kind once, all on that channel. */
  lemma ChannelRunsKinds(sel: Selection, c: int)
    ensures var runs := ChannelRuns(sel, c);
      && (forall i :: 0 <= i < |runs| ==> runs[i].channel == c && runs[i].kind in SelectedKinds(sel))
      && (forall kind :: kind in SelectedKinds(sel) ==> TestRun(kind, c) in runs)
  {
    var runs := ChannelRuns(sel, c);
    forall kind | kind in SelectedKinds(sel)
      ensures TestRun(kind, c) in runs
    {
      var t :| 0 <= t < |SelectedKinds(sel)| && SelectedKinds(sel)[t] == kind;
      assert runs[t] == TestRun(kind, c);
    }
  }

  /** Appending runs on a channel above every earlier one keeps the log ascending. */
  lemma AscendingAppend(before: seq<TestRun>, last: seq<TestRun>, c: int)
    requires forall a, b :: 0 <= a < b < |before| ==> before[a].channel <= before[b].channel
    requires forall i :: 0 <= i < |before| ==> before[i].channel < c
    requires forall i :: 0 <= i < |last| ==> last[i].channel == c
    ensures var runs := before + last;
      forall a, b :: 0 <= a < b < |runs| ==> runs[a].channel <= runs[b].channel
  {
    var runs := before + last;
    forall a, b | 0 <= a < b < |runs|
      ensures runs[a].channel <= runs[b].channel
    {
      if b >= |before| {
        assert runs[b] == last[b - |before|];
        if a >= |before| {
          assert runs[a] == last[a - |before|];
        }
      }
    }
  }

  /** The loop runs the selected tests channel by channel in ascending order: channels never
      decrease along the log, only channels 0 .. k-1 appear, and each of them with every
      selected kind. */
  lemma {:induction false} SweepRunsOrder(sel: Selection, k: nat)
    ensures var runs := SweepRuns(sel, k);
      && (forall a, b :: 0 <= a < b < |runs| ==> runs[a].channel <= runs[b].channel)
      && (forall i :: 0 <= i < |runs| ==> 0 <= runs[i].channel < k && runs[i].kind in SelectedKinds(sel))
      && (forall c, kind :: 0 <= c < k && kind in SelectedKinds(sel) ==> TestRun(kind, c) in runs)
  {
    if k > 0 {
      SweepRunsOrder(sel, k - 1);
      var before, last := SweepRuns(sel, k - 1), ChannelRuns(sel, k - 1);
      ChannelRunsKinds(sel, k - 1);
      AscendingAppend(before, last, k - 1);
      assert SweepRuns(sel, k) == before + last;
    }
  }

  /** Every reached channel contributes one run per selected kind. */
  lemma {:induction false} SweepRunsCount(sel: Selection, k: nat)
    ensures |SweepRuns(sel, k)| == k * |SelectedKinds(sel)|
  {
    if k > 0 {
      SweepRunsCount(sel, k - 1);
    }
  }

  /** Run j of channel c sits at position c * m + j of the log, m being the number of selected
      kinds: the channels come in ascending order, each exactly once, with its kinds in order. */
  lemma {:induction false} SweepRunsAt(sel: Selection, k: nat, c: nat, j: nat)
    requires c < k && j < |SelectedKinds(sel)|
    ensures c * |SelectedKinds(sel)| + j < |SweepRuns(sel, k)|
    ensures SweepRuns(sel, k)[c * |SelectedKinds(sel)| + j] == TestRun(SelectedKinds(sel)[j], c)
  {
    var m := |SelectedKinds(sel)|;
    SweepRunsCount(sel, k - 1);
    assert SweepRuns(sel, k) == SweepRuns(sel, k - 1) + ChannelRuns(sel, k - 1);
    if c < k - 1 {
      SweepRunsAt(sel, k - 1, c, j);
    } else {
      assert c * m + j == |SweepRuns(sel, k - 1)| + j;
    }
  }

  /** The number of channels an all-channels loop reaches: none when the stop flag was already
      set, otherwise every channel before the check at which the flag is seen set. */
  function Reached(stoppedBefore: bool, stopPressAt: Option<nat>, n: nat): (k: nat)
    ensures k <= n
    ensures k > 0 ==> !stoppedBefore
    ensures stopPressAt.Some? ==> k <= stopPressAt.value
    ensures k < n ==> stoppedBefore || stopPressAt == Some(k)
  {
    if stoppedBefore then 0
    else match stopPressAt
      case None => n
      case Some(p) => if p < n then p else n
  }

  /** The first of channels 0 .. k-1 on which a selected test raises, or k when none does. */
  function FirstFailing(sel: Selection, inst: Instruments, k: nat): (f: nat)
    ensures f <= k
    ensures forall c :: 0 <= c < f ==> ChannelSucceeds(sel, inst, c)
    ensures f < k ==> !ChannelSucceeds(sel, inst, f)
  {
    if k == 0 then 0
    else
      var g := FirstFailing(sel, inst, k - 1);
      if g < k - 1 || !ChannelSucceeds(sel, inst, k - 1) then g else k
  }

  /** What an all-channels loop over `mc` slots that reaches channels 0 .. k-1 leaves behind:
      it stops at the first channel that raises, with that channel's partial stores and runs
      and its exception; when none raises, every reached channel has stored its rows. */
  function Sweep(mc: int, sel: Selection, inst: Instruments, k: nat): (o: Outcome)
    ensures var f := FirstFailing(sel, inst, k);
      (o.error.None? <==> f == k) && (f == k ==> o.passmap == Recorded(mc, sel, inst, k))
  {
    var f := FirstFailing(sel, inst, k);
    if f < k then
      var last := RunChannel(Recorded(mc, sel, inst, f), sel, inst, f);
      Outcome(last.passmap, SweepRuns(sel, f) + last.runs, last.error)
    else Outcome(Recorded(mc, sel, inst, k), SweepRuns(sel, k), None)
  }

  /** A channel i that fails after every earlier one succeeded is the first failing one; when
      every channel below k succeeds, none is. */
  lemma SweepEndsAt(mc: int, sel: Selection, inst: Instruments, k: nat, i: nat)
    requires i <= k
    requires forall c :: 0 <= c < i ==> ChannelSucceeds(sel, inst, c)
    requires i < k ==> !ChannelSucceeds(sel, inst, i)
    ensures FirstFailing(sel, inst, k) == i
    ensures i < k ==> var last := RunChannel(Recorded(mc, sel, inst, i), sel, inst, i);
      Sweep(mc, sel, inst, k) == Outcome(last.passmap, SweepRuns(sel, i) + last.runs, last.error)
    ensures i == k ==> Sweep(mc, sel, inst, k) == Outcome(Recorded(mc, sel, inst, k), SweepRuns(sel, k), None)
  {
  }

  // ---- the front end ----

  class TesterFrontEnd {
    /** The selected channel, counting from zero; -1 before the first step up. */
    var channel: int
    /** The channel count chosen with the 32/64/96 radio buttons. */
    var channels: int
    /** The text of the channel label. */
    var text: string
    var pulseEchoTest: bool
    var impedanceTest: bool
    var dongleTest: bool
    var allChannels: bool
    /** Set by the Stop button during an all-channels run. */
    var stopped: bool
    /** The results map; `None` until the first run. */
    var passmap: Option<PassMap>

    function Selected(): Selection
      reads this`pulseEchoTest, this`impedanceTest, this`dongleTest
    {
      Selection(pulseEchoTest, impedanceTest, dongleTest)
    }

    /** The channel lies within [-1, channels] and the label shows it. */
    predicate CounterValid()
      reads this`channel, this`channels, this`text
    {
      -1 <= channel <= channels && text == Label(channel)
    }

    constructor ()
      ensures channel == -1 && channels == 64 && text == "Channel 0"
      ensures !pulseEchoTest && !impedanceTest && !dongleTest && !allChannels
      ensures !stopped && passmap == None
      ensures CounterValid()
    {
      channel := -1;
      channels := 64;
      text := "Channel " + IntToString(0);
      pulseEchoTest, impedanceTest, dongleTest, allChannels := false, false, false, false;
      stopped := false;
      passmap := None;
    }

    /** Ticking or clearing the four check boxes. */
    method SelectTests(pulseEcho: bool, impedance: bool, dongle: bool, all: bool)
      modifies this`pulseEchoTest, this`impedanceTest, this`dongleTest, this`allChannels
      ensures Selected() == Selection(pulseEcho, impedance, dongle) && allChannels == all
    {
      pulseEchoTest, impedanceTest, dongleTest, allChannels := pulseEcho, impedance, dongle, all;
    }

    /** Picking one of the three channel-count radio buttons. */
    method SelectChannelCount(count: int)
      requires count == 32 || count == 64 || count == 96
      modifies this`channels
      ensures channels == count
    {
      channels := count;
    }

    /** The Up button: steps up only while the channel is below the channel count. */
    method IncChannel()
      modifies this`channel, this`text
      ensures old(channel) < channels ==> channel == old(channel) + 1 && text == Label(channel)
      ensures old(channel) >= channels ==> channel == old(channel) && text == old(text)
      ensures old(CounterValid()) ==> CounterValid()
    {
      if channel < channels {
        channel := channel + 1;
        text := "Channel " + IntToString(channel + 1);
      }
    }

    /** The Down button: steps down only while the channel is not below zero. */
    method DecChannel()
      modifies this`channel, this`text
      ensures old(channel) >= 0 ==> channel == old(channel) - 1 && text == Label(channel)
      ensures old(channel) < 0 ==> channel == old(channel) && text == old(text)
      ensures old(CounterValid()) ==> CounterValid()
    {
      if channel >= 0 {
        channel := channel - 1;
        text := "Channel " + IntToString(channel + 1);
      }
    }

    /** Runs the selected tests on channel c and records their results. Each test runs before its
        row is stored; the first exception, raised by a test or by a store into a missing slot,
        ends the call. With no results map yet (`None`) the first selected test still runs,
        and unless it raises itself, the store into `None` raises `TypeError`. */
    method RunSingleChannelTest(inst: Instruments, c: int) returns (runs: seq<TestRun>, r: Result<(), PyError>)
      modifies this`passmap
      ensures old(passmap).Some? ==>
        var o := RunChannel(old(passmap.value), Selected(), inst, c);
        passmap == Some(o.passmap) && runs == o.runs && r == ResultOf(o)
      ensures old(passmap).None? ==>
        var kinds := SelectedKinds(Selected());
        && passmap == None
        && runs == (if kinds == [] then [] else [TestRun(kinds[0], c)])
        && r == (if kinds == [] then Success(())
                 else if Raised(inst, kinds[0], c).Some? then Failure(Raised(inst, kinds[0], c).value)
                 else Failure(TypeError))
    {
      runs := [];
      if pulseEchoTest {
        var row := inst.pulseEcho(c);
        runs := runs + [TestRun(PulseEcho, c)];
        if row.Failure? {
          return runs, Failure(row.error);
        }
        if passmap.None? {
          return runs, Failure(TypeError);
        }
        var slots := Store(passmap.value.pulseEcho, c, row.value);
        if slots.None? {
          return runs, Failure(IndexError);
        }
        passmap := Some(passmap.value.(pulseEcho := slots.value));
      }
      if impedanceTest {
        var row := inst.impedance(c);
        runs := runs + [TestRun(Impedance, c)];
        if row.Failure? {
          return runs, Failure(row.error);
        }
        if passmap.None? {
          return runs, Failure(TypeError);
        }
        var slots := Store(passmap.value.impedance, c, row.value);
        if slots.None? {
          return runs, Failure(IndexError);
        }
        passmap := Some(passmap.value.(impedance := slots.value));
      }
      if dongleTest {
        var row := inst.dongle(c);
        runs := runs + [TestRun(Dongle, c)];
        if row.Failure? {
          return runs, Failure(row.error);
        }
        if passmap.None? {
          return runs, Failure(TypeError);
        }
        var slots := Store(passmap.value.dongle, c, row.value);
        if slots.None? {
          return runs, Failure(IndexError);
        }
        passmap := Some(passmap.value.(dongle := slots.value));
      }
      r := Success(());
    }

    /** The Run Tests button. With no test selected nothing happens. Otherwise the results map
        is reset to empty slots; then either every channel is run by `SweepChannels`, or only
        the selected channel is run. */
    method RunTests(inst: Instruments, stopPressAt: Option<nat>) returns (runs: seq<TestRun>, r: Result<(), PyError>)
      modifies this`passmap, this`stopped
      ensures !AnySelected(Selected()) ==>
        passmap == old(passmap) && stopped == old(stopped) && runs == [] && r == Success(())
      ensures AnySelected(Selected()) && allChannels ==>
        var o := Sweep(channels, Selected(), inst, Reached(old(stopped), stopPressAt, RowCount(channels)));
        && passmap == Some(o.passmap) && runs == o.runs && r == ResultOf(o)
        && (o.error.None? ==> !stopped) && (o.error.Some? ==> stopped == old(stopped))
      ensures AnySelected(Selected()) && !allChannels ==>
        var o := RunChannel(InitialPassMap(channels), Selected(), inst, channel);
        passmap == Some(o.passmap) && runs == o.runs && r == ResultOf(o) && stopped == old(stopped)
    {
      var sel := Selected();
      if !AnySelected(sel) {
        return [], Success(());
      }
      var mc := channels;
      passmap := Some(InitialPassMap(mc));
      if allChannels {
        runs, r := SweepChannels(inst, stopPressAt, sel, mc);
      } else {
        runs, r := RunSingleChannelTest(inst, channel);
      }
    }

    /** The all-channels loop of the Run Tests button: channels run in ascending order until the
        stop flag is seen, after which the flag is cleared. `stopPressAt` is the first check
        before a channel at which the Stop button has been pressed. An exception from a channel
        leaves the loop at once: the slots stored so far stay, the flag is not cleared, and the
        exception is passed on. */
    method SweepChannels(inst: Instruments, stopPressAt: Option<nat>, sel: Selection, mc: int)
      returns (runs: seq<TestRun>, r: Result<(), PyError>)
      requires sel == Selected() && passmap == Some(InitialPassMap(mc))
      modifies this`passmap, this`stopped
      ensures var o := Sweep(mc, sel, inst, Reached(old(stopped), stopPressAt, RowCount(mc)));
        && passmap == Some(o.passmap) && runs == o.runs && r == ResultOf(o)
        && (o.error.None? ==> !stopped) && (o.error.Some? ==> stopped == old(stopped))
    {
      var n := RowCount(mc);
      ghost var k := Reached(old(stopped), stopPressAt, n);
      InitialRecorded(mc, sel, inst);
      runs := [];
      var i := 0;
      while i < n
        invariant i <= k
        invariant stopped == old(stopped)
        invariant forall c :: 0 <= c < i ==> ChannelSucceeds(sel, inst, c)
        invariant passmap == Some(Recorded(mc, sel, inst, i)) && runs == SweepRuns(sel, i)
      {
        if stopPressAt == Some(i) {
          stopped := true;
        }
        if stopped {
          break;
        }
        RecordStep(mc, sel, inst, i);
        var step, e := RunSingleChannelTest(inst, i);
        runs := runs + step;
        if e.Failure? {
          SweepEndsAt(mc, sel, inst, k, i);
          return runs, e;
        }
        i := i + 1;
      }
      SweepEndsAt(mc, sel, inst, k, i);
      stopped := false;
      r := Success(());
    }
  }
}
