/** The tester back end of src/TesterBackend.py: its own revision of the VNA wrapper, its own
    copy of the oscilloscope's windowing, and the relay-channel selection of `CatheterTester`. */
module TesterBackend {
  import opened Wrappers
  import opened Seqs
  import opened VnaCommands
  import opened VnaWrites
  import opened Windowing
  import opened Relay

  // ---- VNA ----

  /** The script this revision writes: the `sweep` line is unconditional, every `writes1p`
      file name is the output directory plus the parameter, and the script ends with
      `exitVNWA` and no newline. */
  function ScriptLines(s: Settings, path: string): seq<string>
  {
    HeaderLines(s) + [SweepLine(s.parameters)] + WriteLines(path, s.parameters) + [ExitLine]
  }

  /** The calibration direction is stored but never read: the script is the same whatever
      it is. */
  lemma CalibrationDirectionUnused(s: Settings, path: string, dir: Option<string>)
    ensures ScriptLines(s.(caldirection := dir), path) == ScriptLines(s, path)
  {
  }

  class VNA {
    var lowfreq: int
    var highfreq: int
    var mastercal: Option<string>
    var calfile: Option<string>
    var numpoints: int
    var scale: string
    var timeperpoint: int
    var txpower: int
    var parameters: seq<string>
    var calsweep: Option<string>
    var calsweepverbose: bool
    var caldirection: Option<string>
    var path: string

    function Settings(): Settings
      reads this
    {
      VnaCommands.Settings(lowfreq, highfreq, mastercal, calfile, numpoints, scale, timeperpoint,
                           txpower, parameters, calsweep, calsweepverbose, caldirection)
    }

    /** The defaults of this revision: a 100 MHz stop frequency, 400 points, the parameters
        s11 and s12, and the output directory `..\data\`. */
    constructor ()
      ensures lowfreq == 1000000 && highfreq == 100000000 && numpoints == 400
      ensures scale == "log" && timeperpoint == 10 && txpower == 4000
      ensures parameters == ["s11", "s12"] && mastercal == None && calsweep == None && !calsweepverbose
      ensures calfile == Some("C:\\VNWA\\VNWA.cal") && caldirection == None && path == "..\\data\\"
    {
      lowfreq := 1000000;
      highfreq := 100000000;
      mastercal := None;
      calfile := Some("C:\\VNWA\\VNWA.cal");
      numpoints := 400;
      scale := "log";
      timeperpoint := 10;
      txpower := 4000;
      parameters := ["s11", "s12"];
      calsweep := None;
      calsweepverbose := false;
      caldirection := None;
      path := "..\\data\\";
    }

    method SetStartFreq(freq: int)
      modifies this
      ensures Settings() == old(Settings()).(lowfreq := freq) && path == old(path)
    {
      lowfreq := freq;
    }

    /** Stores the direction; nothing in the model reads it, as nothing in the source does. */
    method SetCalibrationDirection(dir: Option<string> := None)
      modifies this
      ensures Settings() == old(Settings()).(caldirection := dir) && path == old(path)
    {
      caldirection := dir;
    }

    method SetCalibrationSweep(kind: Option<string>, verbose: bool)
      modifies this
      ensures Settings() == old(Settings()).(calsweep := kind, calsweepverbose := verbose)
      ensures path == old(path)
    {
      calsweep := kind;
      calsweepverbose := verbose;
    }

    method SetMasterCal(file: Option<string> := None)
      modifies this
      ensures Settings() == old(Settings()).(mastercal := file) && path == old(path)
    {
      mastercal := file;
    }

    method SetTimePerPoint(tpp: int)
      modifies this
      ensures Settings() == old(Settings()).(timeperpoint := tpp) && path == old(path)
    {
      timeperpoint := tpp;
    }

    method SetStopFreq(freq: int)
      modifies this
      ensures Settings() == old(Settings()).(highfreq := freq) && path == old(path)
    {
      highfreq := freq;
    }

    /** Appends at the end, keeping the earlier parameters in order. */
    method AddSweepParameter(source: string)
      modifies this
      ensures Settings() == old(Settings()).(parameters := old(parameters) + [source])
      ensures path == old(path)
    {
      parameters := parameters + [source];
    }

    method SetScale(s: string := "Log")
      modifies this
      ensures Settings() == old(Settings()).(scale := s) && path == old(path)
    {
      scale := s;
    }

    /** Replaces the whole parameter list. */
    method SetSweepParameters(params: seq<string> := ["s11", "s12"])
      modifies this
      ensures Settings() == old(Settings()).(parameters := params) && path == old(path)
    {
      parameters := params;
    }

    method SetNumPoints(points: int)
      modifies this
      ensures Settings() == old(Settings()).(numpoints := points) && path == old(path)
    {
      numpoints := points;
    }

    /** The strings written to the script file, one per `file.write` call. */
    method Sweep() returns (writes: seq<string>)
      ensures Concat(writes) == Concat(ScriptLines(Settings(), path))
    {
      var s := Settings();
      var header := HeaderWrites(s);
      var sweep := SweepWrites(parameters);
      var saves := SaveWrites(path, parameters);
      writes := header + sweep + saves + [ExitLine];
      SweepText(s, path, header, sweep, saves);
    }
  }

  lemma SweepText(s: Settings, path: string, header: seq<string>, sweep: seq<string>, saves: seq<string>)
    requires Concat(header) == Concat(HeaderLines(s))
    requires Concat(sweep) == SweepLine(s.parameters)
    requires Concat(saves) == Concat(WriteLines(path, s.parameters))
    ensures Concat(header + sweep + saves + [ExitLine]) == Concat(ScriptLines(s, path))
  {
    var all := header + sweep + saves;
    ConcatAppend(header, sweep);
    ConcatAppend(header + sweep, saves);
    ConcatSnoc(all, ExitLine);
    var lines := HeaderLines(s) + [SweepLine(s.parameters)] + WriteLines(path, s.parameters);
    ConcatAppend(HeaderLines(s), [SweepLine(s.parameters)]);
    ConcatSingle(SweepLine(s.parameters));
    ConcatAppend(HeaderLines(s) + [SweepLine(s.parameters)], WriteLines(path, s.parameters));
    ConcatSnoc(lines, ExitLine);
  }

  /** The command words of the script, line by line. */
  function ScriptVerbList(s: Settings): seq<string>
  {
    CalibrationVerbs(s) + ConfigurationVerbs + ["sweep"]
    + seq(|s.parameters|, _ => "writes1p") + ["exitVNWA"]
  }

  /** The calibration commands under the same conditions and in the same order as in
      src/VNA.py, then the four configuration commands, then always one `sweep`, one
      `writes1p` per parameter, and `exitVNWA` last. */
  lemma ScriptVerbs(s: Settings, path: string)
    ensures Verbs(ScriptLines(s, path)) == ScriptVerbList(s)
  {
    var header, sweep, saves := HeaderLines(s), [SweepLine(s.parameters)], WriteLines(path, s.parameters);
    HeaderLinesVerbs(s);
    SweepLineVerbs(s.parameters);
    WriteLinesVerbs(path, s.parameters);
    ExitLineVerbs();
    VerbsAppend(header, sweep);
    VerbsAppend(header + sweep, saves);
    VerbsAppend(header + sweep + saves, [ExitLine]);
  }

  lemma VerbListPresence(s: Settings)
    ensures var verbs := ScriptVerbList(s);
      && ("loadmastercal" in verbs <==> s.mastercal.Some?)
      && ("loadcal" in verbs <==> s.calfile.Some?)
      && ("calsweep" in verbs <==> s.calsweep.Some?)
      && "sweep" in verbs
      && ("writes1p" in verbs <==> s.parameters != [])
      && verbs[|verbs| - 1] == "exitVNWA"
  {
    var writes := seq(|s.parameters|, _ => "writes1p");
    var head, tail := CalibrationVerbs(s) + ConfigurationVerbs, ["sweep"] + writes + ["exitVNWA"];
    TailWords(|s.parameters|);
    CalibrationPresence(s, tail);
    LaterWordsAbsent(s);
    Associative(head, ["sweep"], writes);
    Associative(head, ["sweep"] + writes, ["exitVNWA"]);
    assert ScriptVerbList(s) == head + tail;
  }

  /** The words after the configuration commands: `sweep`, `n` times `writes1p`, `exitVNWA`. */
  lemma TailWords(n: nat)
    ensures var tail := ["sweep"] + seq(n, _ => "writes1p") + ["exitVNWA"];
      && (forall w :: w in tail ==> w == "sweep" || w == "writes1p" || w == "exitVNWA")
      && "sweep" in tail
      && ("writes1p" in tail <==> n > 0)
      && tail[|tail| - 1] == "exitVNWA"
  {
    var writes := seq(n, _ => "writes1p");
    var tail := ["sweep"] + writes + ["exitVNWA"];
    assert forall w :: w in writes ==> w == "writes1p";
    if n > 0 {
      assert tail[1] == "writes1p";
    } else {
      assert tail == ["sweep", "exitVNWA"];
    }
  }

  /** Each calibration command appears exactly when its field is set, `sweep` always appears,
      `writes1p` appears iff there are parameters, and the last command is `exitVNWA`. */
  lemma ScriptCommandsPresent(s: Settings, path: string)
    ensures var verbs := Verbs(ScriptLines(s, path));
      && ("loadmastercal" in verbs <==> s.mastercal.Some?)
      && ("loadcal" in verbs <==> s.calfile.Some?)
      && ("calsweep" in verbs <==> s.calsweep.Some?)
      && "sweep" in verbs
      && ("writes1p" in verbs <==> s.parameters != [])
      && verbs[|verbs| - 1] == "exitVNWA"
  {
    ScriptVerbs(s, path);
    VerbListPresence(s);
  }

  /** The header lines (laid out as `HeaderLayout` states) come first, then the `sweep` line,
      one `path + param + ".s1p"` line per parameter in list order, and `exitVNWA`. */
  lemma ScriptLayout(s: Settings, path: string)
    ensures var lines, n := ScriptLines(s, path), |HeaderLines(s)|;
      && lines[..n] == HeaderLines(s)
      && |lines| == n + 2 + |s.parameters|
      && lines[n] == SweepLine(s.parameters)
      && (forall i :: 0 <= i < |s.parameters| ==> lines[n + 1 + i] == WriteS1P(path, s.parameters[i]))
      && lines[|lines| - 1] == ExitLine
  {
    var lines := HeaderLines(s) + [SweepLine(s.parameters)] + WriteLines(path, s.parameters);
    Layout(HeaderLines(s), SweepLine(s.parameters), WriteLines(path, s.parameters));
    assert (lines + [ExitLine])[..|HeaderLines(s)|] == lines[..|HeaderLines(s)|];
  }

  /** With no parameters the script still holds a bare `sweep ` line, and no `writes1p`. */
  lemma EmptyParametersBareSweep(s: Settings, path: string)
    requires s.parameters == []
    ensures ScriptLines(s, path) == HeaderLines(s) + ["sweep \n", "exitVNWA"]
  {
    assert Spaced([]) == [];
    assert SweepLine([]) == "sweep \n";
  }

  /** The script text ends in `exitVNWA` with no newline after it. */
  lemma ScriptEndsWithExit(s: Settings, path: string)
    ensures var text := Concat(ScriptLines(s, path));
      |text| >= 8 && text[|text| - 8..] == "exitVNWA" && text[|text| - 1] != '\n'
  {
    var lines := ScriptLines(s, path);
    assert lines == lines[..|lines| - 1] + [ExitLine];
    ConcatSnoc(lines[..|lines| - 1], ExitLine);
  }

  // ---- oscilloscope ----

  class Oscilloscope {
    /** The stored trace. This revision starts from an empty dictionary, which (like `None`
        in src/Oscilloscope.py) makes every windowing attempt raise; it is modelled as `None`. */
    var waveform: Option<Waveform>
    var fft: Option<Spectrum>

    constructor ()
      ensures waveform == None && fft == None
    {
      waveform := None;
      fft := None;
    }

    /** Replaces the stored trace by its window and returns it; when windowing raises, the
        stored trace is left as it was. */
    method WindowWaveform(initialUs: real, windowSizeUs: real)
      returns (r: Result<Waveform, WindowError>)
      modifies this`waveform
      ensures r == Window(old(waveform), initialUs, windowSizeUs)
      ensures waveform == if r.Success? then Some(r.value) else old(waveform)
    {
      r := Window(waveform, initialUs, windowSizeUs);
      if r.Success? {
        waveform := Some(r.value);
      }
    }
  }

  // ---- relay selection ----

  class CatheterTester {
    /** Every byte written to the relay controller's serial port, oldest first. */
    var sent: seq<byte>

    constructor ()
      ensures sent == []
    {
      sent := [];
    }

    /** Sends the channel number as one byte; a channel outside 0..255 raises before anything
        is sent. */
    method SetChannel(channel: int) returns (r: Result<(), EncodeError>)
      modifies this`sent
      ensures r.Success? <==> 0 <= channel <= 255
      ensures r.Success? ==> sent == old(sent) + [channel as byte]
      ensures r.Failure? ==> sent == old(sent)
    {
      ChannelByte(channel);
      var bytes := ToBytes(channel, 1);
      if bytes.Failure? {
        return Failure(bytes.error);
      }
      sent := sent + bytes.value;
      r := Success(());
    }
  }
}
