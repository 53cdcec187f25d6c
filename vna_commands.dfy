/** The command lines of the vector network analyser's sweep script, as both VNA
    revisions (src/VNA.py and src/TesterBackend.py) format them. */
module VnaCommands {
  import opened Wrappers
  import opened Seqs
  import opened Decimal

  /** The fields of a VNA object that both revisions keep and serialise the same way. */
  datatype Settings = Settings(
    lowfreq: int,
    highfreq: int,
    mastercal: Option<string>,
    calfile: Option<string>,
    numpoints: int,
    scale: string,
    timeperpoint: int,
    txpower: int,
    parameters: seq<string>,
    calsweep: Option<string>,
    calsweepverbose: bool,
    caldirection: Option<string>)

  // ---- one line per command ----

  /** A command word, one space, then the command's arguments. */
  function Command(word: string, args: string): string { word + " " + args }

  function LoadMasterCal(file: string): string { Command("loadmastercal", file + "\n") }

  function LoadCal(file: string): string { Command("loadcal", file + "\n") }

  /** The sweep kind is written with no separator before `nv` (not verbose) or the newline. */
  function CalSweep(kind: string, verbose: bool): string
  {
    Command("calsweep", kind + (if verbose then "\n" else "nv\n"))
  }

  function RangeLine(low: int, high: int): string
  {
    Command("range", IntToString(low) + " " + IntToString(high) + "\n")
  }

  function FrameLine(points: int, scale: string): string
  {
    Command("frame", IntToString(points) + " " + scale + "\n")
  }

  function TimePerPointLine(tpp: int): string { Command("timeperpoint", IntToString(tpp) + "\n") }

  function TxPowerLine(power: int): string { Command("setTXpower", IntToString(power) + "\n") }

  /** Every parameter followed by one space. */
  function Spaced(params: seq<string>): string
  {
    if params == [] then [] else params[0] + " " + Spaced(params[1..])
  }

  function SweepLine(params: seq<string>): string { Command("sweep", Spaced(params) + "\n") }

  /** The command that saves one measured parameter to the Touchstone file `prefix + param + ".s1p"`. */
  function WriteS1P(prefix: string, param: string): string
  {
    Command("writes1p", prefix + param + ".s1p " + param + "\n")
  }

  const ExitLine: string := "exitVNWA"

  // ---- groups of lines ----

  /** The conditional calibration lines: master calibration, calibration file, calibration sweep. */
  function CalibrationLines(s: Settings): seq<string>
  {
    (if s.mastercal.Some? then [LoadMasterCal(s.mastercal.value)] else [])
    + (if s.calfile.Some? then [LoadCal(s.calfile.value)] else [])
    + (if s.calsweep.Some? then [CalSweep(s.calsweep.value, s.calsweepverbose)] else [])
  }

  /** Everything before the sweep command. */
  function HeaderLines(s: Settings): seq<string> { CalibrationLines(s) + ConfigurationLines(s) }

  /** The four lines written unconditionally. */
  function ConfigurationLines(s: Settings): seq<string>
  {
    [RangeLine(s.lowfreq, s.highfreq), FrameLine(s.numpoints, s.scale),
     TimePerPointLine(s.timeperpoint), TxPowerLine(s.txpower)]
  }

  /** The calibration lines, then the four configuration lines in their fixed order. */
  lemma HeaderLayout(s: Settings)
    ensures var header, h := HeaderLines(s), |CalibrationLines(s)|;
      && |header| == h + 4
      && header[..h] == CalibrationLines(s)
      && header[h] == RangeLine(s.lowfreq, s.highfreq)
      && header[h + 1] == FrameLine(s.numpoints, s.scale)
      && header[h + 2] == TimePerPointLine(s.timeperpoint)
      && header[h + 3] == TxPowerLine(s.txpower)
  {
    var cal, conf := CalibrationLines(s), ConfigurationLines(s);
    assert (cal + conf)[..|cal|] == cal;
  }

  /** One `writes1p` line per parameter, in list order. */
  function WriteLines(prefix: string, params: seq<string>): (r: seq<string>)
    ensures |r| == |params|
    ensures forall i :: 0 <= i < |params| ==> r[i] == WriteS1P(prefix, params[i])
  {
    if params == [] then []
    else WriteLines(prefix, params[..|params| - 1]) + [WriteS1P(prefix, params[|params| - 1])]
  }

  lemma SpacedAppend(params: seq<string>, p: string)
    ensures Spaced(params + [p]) == Spaced(params) + p + " "
  {
    if params != [] {
      assert (params + [p])[1..] == params[1..] + [p];
      SpacedAppend(params[1..], p);
    } else {
      assert [p][1..] == [];
    }
  }

  // ---- the first word of a line ----

  predicate IsWord(w: string) { forall i :: 0 <= i < |w| ==> w[i] != ' ' && w[i] != '\n' }

  /** The command word: everything before the first space or newline. */
  function Verb(line: string): (w: string)
    ensures IsWord(w) && w <= line
  {
    if line == [] || line[0] == ' ' || line[0] == '\n' then [] else [line[0]] + Verb(line[1..])
  }

  function Verbs(lines: seq<string>): (r: seq<string>)
    ensures |r| == |lines|
  {
    seq(|lines|, i requires 0 <= i < |lines| => Verb(lines[i]))
  }

  lemma VerbsAppend(a: seq<string>, b: seq<string>)
    ensures Verbs(a + b) == Verbs(a) + Verbs(b)
  {
  }

  lemma {:induction false} VerbOfCommand(w: string, rest: string)
    requires IsWord(w)
    requires rest != [] && (rest[0] == ' ' || rest[0] == '\n')
    ensures Verb(w + rest) == w
  {
    if w != [] {
      assert (w + rest)[1..] == w[1..] + rest;
      VerbOfCommand(w[1..], rest);
    }
  }

  lemma {:induction false} VerbOfWord(w: string)
    requires IsWord(w)
    ensures Verb(w) == w
  {
    if w != [] {
      VerbOfWord(w[1..]);
    }
  }

  lemma VerbOfCommandLine(word: string, args: string)
    requires IsWord(word)
    ensures Verb(Command(word, args)) == word
  {
    assert Command(word, args) == word + (" " + args);
    VerbOfCommand(word, " " + args);
  }

  // Each formatter's line starts with its own command word, whatever the arguments.

  lemma CalibrationCommandVerbs(file: string, kind: string, verbose: bool)
    ensures Verb(LoadMasterCal(file)) == "loadmastercal"
    ensures Verb(LoadCal(file)) == "loadcal"
    ensures Verb(CalSweep(kind, verbose)) == "calsweep"
  {
    VerbOfCommandLine("loadmastercal", file + "\n");
    VerbOfCommandLine("loadcal", file + "\n");
    VerbOfCommandLine("calsweep", kind + (if verbose then "\n" else "nv\n"));
  }

  lemma ConfigurationCommandVerbs(s: Settings)
    ensures Verb(RangeLine(s.lowfreq, s.highfreq)) == "range"
    ensures Verb(FrameLine(s.numpoints, s.scale)) == "frame"
    ensures Verb(TimePerPointLine(s.timeperpoint)) == "timeperpoint"
    ensures Verb(TxPowerLine(s.txpower)) == "setTXpower"
  {
    VerbOfCommandLine("range", IntToString(s.lowfreq) + " " + IntToString(s.highfreq) + "\n");
    VerbOfCommandLine("frame", IntToString(s.numpoints) + " " + s.scale + "\n");
    VerbOfCommandLine("timeperpoint", IntToString(s.timeperpoint) + "\n");
    VerbOfCommandLine("setTXpower", IntToString(s.txpower) + "\n");
  }

  lemma SweepCommandVerbs(params: seq<string>, prefix: string, param: string)
    ensures Verb(SweepLine(params)) == "sweep"
    ensures Verb(WriteS1P(prefix, param)) == "writes1p"
    ensures Verb(ExitLine) == "exitVNWA"
  {
    VerbOfCommandLine("sweep", Spaced(params) + "\n");
    VerbOfCommandLine("writes1p", prefix + param + ".s1p " + param + "\n");
    VerbOfWord(ExitLine);
  }

  function CalibrationVerbs(s: Settings): seq<string>
  {
    (if s.mastercal.Some? then ["loadmastercal"] else [])
    + (if s.calfile.Some? then ["loadcal"] else [])
    + (if s.calsweep.Some? then ["calsweep"] else [])
  }

  const ConfigurationVerbs: seq<string> := ["range", "frame", "timeperpoint", "setTXpower"]

  /** The calibration lines are, in this order, `loadmastercal` iff a master calibration is
      set, `loadcal` iff a calibration file is set, `calsweep` iff a calibration sweep is set. */
  lemma CalibrationLinesVerbs(s: Settings)
    ensures Verbs(CalibrationLines(s)) == CalibrationVerbs(s)
  {
    var master := if s.mastercal.Some? then [LoadMasterCal(s.mastercal.value)] else [];
    var cal := if s.calfile.Some? then [LoadCal(s.calfile.value)] else [];
    var sweep := if s.calsweep.Some? then [CalSweep(s.calsweep.value, s.calsweepverbose)] else [];
    VerbsAppend(master, cal);
    VerbsAppend(master + cal, sweep);
    if s.mastercal.Some? {
      CalibrationCommandVerbs(s.mastercal.value, "", false);
      assert Verbs(master) == ["loadmastercal"];
    }
    if s.calfile.Some? {
      CalibrationCommandVerbs(s.calfile.value, "", false);
      assert Verbs(cal) == ["loadcal"];
    }
    if s.calsweep.Some? {
      CalibrationCommandVerbs("", s.calsweep.value, s.calsweepverbose);
      assert Verbs(sweep) == ["calsweep"];
    }
  }

  lemma HeaderLinesVerbs(s: Settings)
    ensures Verbs(HeaderLines(s)) == CalibrationVerbs(s) + ConfigurationVerbs
  {
    CalibrationLinesVerbs(s);
    ConfigurationLinesVerbs(s);
    VerbsAppend(CalibrationLines(s), ConfigurationLines(s));
  }

  lemma SweepLineVerbs(params: seq<string>)
    ensures Verbs([SweepLine(params)]) == ["sweep"]
  {
    SweepCommandVerbs(params, "", "");
  }

  lemma ExitLineVerbs()
    ensures Verbs([ExitLine]) == ["exitVNWA"]
  {
    SweepCommandVerbs([], "", "");
  }

  lemma ConfigurationLinesVerbs(s: Settings)
    ensures Verbs(ConfigurationLines(s)) == ConfigurationVerbs
  {
    ConfigurationCommandVerbs(s);
  }

  /** The words that can head a script line, apart from `exitVNWA`. */
  const CommandWords: seq<string> := ["loadmastercal", "loadcal", "calsweep", "range", "frame",
                                      "timeperpoint", "setTXpower", "sweep", "writes1p"]

  /** With only `sweep`, `writes1p` and `exitVNWA` after the configuration commands, each
      calibration command is present exactly when its field is set. */
  lemma CalibrationPresence(s: Settings, tail: seq<string>)
    requires forall w :: w in tail ==> w == "sweep" || w == "writes1p" || w == "exitVNWA"
    ensures var v := CalibrationVerbs(s) + ConfigurationVerbs + tail;
      && ("loadmastercal" in v <==> s.mastercal.Some?)
      && ("loadcal" in v <==> s.calfile.Some?)
      && ("calsweep" in v <==> s.calsweep.Some?)
  {
    var v := CalibrationVerbs(s) + ConfigurationVerbs + tail;
    assert "loadmastercal" !in ConfigurationVerbs && "loadmastercal" !in tail;
    assert "loadcal" !in ConfigurationVerbs && "loadcal" !in tail;
    assert "calsweep" !in ConfigurationVerbs && "calsweep" !in tail;
  }

  /** The words that follow the configuration commands are none of the earlier commands. */
  lemma LaterWordsAbsent(s: Settings)
    ensures "sweep" !in CalibrationVerbs(s) + ConfigurationVerbs
    ensures "writes1p" !in CalibrationVerbs(s) + ConfigurationVerbs
    ensures "exitVNWA" !in CalibrationVerbs(s) + ConfigurationVerbs
  {
    SweepAbsent(s);
    WriteAbsent(s);
    ExitAbsent(s);
  }

  lemma SweepAbsent(s: Settings)
    ensures "sweep" !in CalibrationVerbs(s) + ConfigurationVerbs
  {
  }

  lemma WriteAbsent(s: Settings)
    ensures "writes1p" !in CalibrationVerbs(s) + ConfigurationVerbs
  {
  }

  lemma ExitAbsent(s: Settings)
    ensures "exitVNWA" !in CalibrationVerbs(s) + ConfigurationVerbs
  {
  }

  /** Followed only by `sweep` and `writes1p`, the commands are all command words, so
      `exitVNWA` is not among them. */
  lemma NoExitWord(s: Settings, tail: seq<string>)
    requires forall w :: w in tail ==> w == "sweep" || w == "writes1p"
    ensures "exitVNWA" !in CalibrationVerbs(s) + ConfigurationVerbs + tail
  {
    var v := CalibrationVerbs(s) + ConfigurationVerbs + tail;
    forall w | w in v ensures w in CommandWords {
      if w in tail {
      } else if w in ConfigurationVerbs {
      } else {
        assert w in CalibrationVerbs(s);
      }
    }
    assert "exitVNWA" !in CommandWords;
  }

  lemma WriteLinesVerbs(prefix: string, params: seq<string>)
    ensures Verbs(WriteLines(prefix, params)) == seq(|params|, _ => "writes1p")
  {
    forall i | 0 <= i < |params|
      ensures Verbs(WriteLines(prefix, params))[i] == "writes1p"
    {
      SweepCommandVerbs([], prefix, params[i]);
    }
  }

  // ---- reading the sweep line back ----

  /** Splits text made of space-terminated words back into the words. */
  function Fields(s: string): seq<string>
    decreases |s|
  {
    if s == [] then []
    else
      var w := Verb(s);
      if |w| < |s| then [w] + Fields(s[|w| + 1..]) else [s]
  }

  /** The parameter list can be read back from the `sweep` line whenever no parameter holds
      a space or a newline. */
  lemma {:induction false} SpacedFields(params: seq<string>)
    requires forall i :: 0 <= i < |params| ==> IsWord(params[i])
    ensures Fields(Spaced(params)) == params
  {
    if params != [] {
      var s := Spaced(params);
      assert s == params[0] + (" " + Spaced(params[1..]));
      VerbOfCommand(params[0], " " + Spaced(params[1..]));
      assert s[|params[0]| + 1..] == Spaced(params[1..]);
      SpacedFields(params[1..]);
    }
  }
}

/** The `file.write` calls that both revisions of `VNA.Sweep` share. Each method returns the
    strings written, one element per call, in call order. */
module VnaWrites {
  import opened Wrappers
  import opened Seqs
  import opened VnaCommands

  /** The calibration and configuration lines, written under the same guards as in the source. */
  method HeaderWrites(s: Settings) returns (writes: seq<string>)
    ensures Concat(writes) == Concat(HeaderLines(s))
  {
    var calibration := CalibrationWrites(s);
    var configuration := ConfigurationWrites(s);
    writes := calibration + configuration;
    ConcatAppend(calibration, configuration);
    ConcatAppend(CalibrationLines(s), ConfigurationLines(s));
  }

  /** `loadmastercal`, `loadcal` and `calsweep`, each only when its field is set. */
  method CalibrationWrites(s: Settings) returns (writes: seq<string>)
    ensures Concat(writes) == Concat(CalibrationLines(s))
  {
    var master: seq<string> := [];
    if s.mastercal.Some? {
      master := [LoadMasterCal(s.mastercal.value)];
    }
    var cal: seq<string> := [];
    if s.calfile.Some? {
      cal := [LoadCal(s.calfile.value)];
    }
    var sweep: seq<string> := [];
    if s.calsweep.Some? {
      sweep := CalSweepWrites(s.calsweep.value, s.calsweepverbose);
    }
    writes := master + cal + sweep;
    ghost var lines := CalibrationLines(s);
    ghost var sweepLines := if s.calsweep.Some? then [CalSweep(s.calsweep.value, s.calsweepverbose)] else [];
    assert lines == master + cal + sweepLines;
    assert Concat(sweep) == Concat(sweepLines) by {
      if s.calsweep.Some? {
        ConcatSingle(CalSweep(s.calsweep.value, s.calsweepverbose));
      }
    }
    ConcatAppend(master + cal, sweep);
    ConcatAppend(master + cal, sweepLines);
  }

  /** The calibration sweep line, written as `calsweep <kind>` followed by its ending. */
  method CalSweepWrites(kind: string, verbose: bool) returns (writes: seq<string>)
    ensures Concat(writes) == CalSweep(kind, verbose)
  {
    var head := Command("calsweep", kind);
    var tail := if !verbose then "nv\n" else "\n";
    writes := [head, tail];
    ConcatSnoc([head], tail);
    ConcatSingle(head);
    CalSweepSplit(kind, verbose);
  }

  lemma CalSweepSplit(kind: string, verbose: bool)
    ensures CalSweep(kind, verbose) == Command("calsweep", kind) + (if !verbose then "nv\n" else "\n")
  {
    Associative("calsweep ", kind, if !verbose then "nv\n" else "\n");
  }

  /** The four lines written unconditionally, in order. */
  method ConfigurationWrites(s: Settings) returns (writes: seq<string>)
    ensures writes == ConfigurationLines(s)
  {
    writes := [RangeLine(s.lowfreq, s.highfreq)];
    writes := writes + [FrameLine(s.numpoints, s.scale)];
    writes := writes + [TimePerPointLine(s.timeperpoint)];
    writes := writes + [TxPowerLine(s.txpower)];
  }

  /** `"sweep "`, then each parameter followed by a space, then the newline. */
  method SweepWrites(params: seq<string>) returns (writes: seq<string>)
    ensures Concat(writes) == SweepLine(params)
  {
    writes := ["sweep "];
    ConcatSnoc([], "sweep ");
    var i := 0;
    while i < |params|
      invariant 0 <= i <= |params|
      invariant Concat(writes) == "sweep " + Spaced(params[..i])
    {
      ConcatSnoc(writes, params[i] + " ");
      SpacedAppend(params[..i], params[i]);
      assert params[..i + 1] == params[..i] + [params[i]];
      writes := writes + [params[i] + " "];
      i := i + 1;
    }
    ConcatSnoc(writes, "\n");
    writes := writes + ["\n"];
    assert params[..i] == params;
  }

  /** One `writes1p` line per parameter, in list order. */
  method SaveWrites(prefix: string, params: seq<string>) returns (writes: seq<string>)
    ensures Concat(writes) == Concat(WriteLines(prefix, params))
  {
    writes := [];
    var i := 0;
    while i < |params|
      invariant 0 <= i <= |params|
      invariant writes == WriteLines(prefix, params[..i])
    {
      writes := writes + [WriteS1P(prefix, params[i])];
      i := i + 1;
    }
    assert params[..i] == params;
  }
}
