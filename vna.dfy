/** The VNA wrapper of src/VNA.py: a configuration object changed by setters, whose `Sweep`
    serialises it into the analyser's command script. */
module Vna {
  import opened Wrappers
  import opened Seqs
  import opened VnaCommands
  import opened VnaWrites

  /** The script `Sweep` writes: the calibration and configuration lines, then, only when
      there are parameters, one `sweep` line and one `writes1p` line per parameter. */
  function ScriptLines(s: Settings, filename: string): seq<string>
  {
    if s.parameters == [] then HeaderLines(s)
    else HeaderLines(s) + [SweepLine(s.parameters)] + WriteLines(filename, s.parameters)
  }

  class VNA {
    var lowfreq: int
    var highfreq: int
    var mastercal: Option<string>
    var calfile: Option<string>
    var numpoints: int
    var scale: string
    var timeperpoint: int
    var txpower: int
    var parameters: seq<string>
    var calsweep: Option<string>
    var calsweepverbose: bool
    var caldirection: Option<string>
    var filename: string

    /** The fields that the script is built from (every field except the file name prefix). */
    function Settings(): Settings
      reads this
    {
      VnaCommands.Settings(lowfreq, highfreq, mastercal, calfile, numpoints, scale, timeperpoint,
                           txpower, parameters, calsweep, calsweepverbose, caldirection)
    }

    constructor ()
      ensures lowfreq == 1000000 && highfreq == 1300000000 && numpoints == 2000
      ensures scale == "log" && timeperpoint == 10 && txpower == 4000
      ensures parameters == ["s11"] && mastercal == None && calsweep == None && !calsweepverbose
      ensures calfile == Some("C:\\VNWA\\VNWA.cal") && caldirection == None && filename == ""
    {
      lowfreq := 1000000;
      highfreq := 1300000000;
      mastercal := None;
      calfile := Some("C:\\VNWA\\VNWA.cal");
      numpoints := 2000;
      scale := "log";
      timeperpoint := 10;
      txpower := 4000;
      parameters := ["s11"];
      calsweep := None;
      calsweepverbose := false;
      caldirection := None;
      filename := "";
    }

    method SetStartFreq(freq: int)
      modifies this
      ensures Settings() == old(Settings()).(lowfreq := freq) && filename == old(filename)
    {
      lowfreq := freq;
    }

    /** Stores the direction; nothing in the model reads it, as nothing in the source does. */
    method SetCalibrationDirection(dir: Option<string> := None)
      modifies this
      ensures Settings() == old(Settings()).(caldirection := dir) && filename == old(filename)
    {
      caldirection := dir;
    }

    method SetCalibrationSweep(kind: Option<string>, verbose: bool)
      modifies this
      ensures Settings() == old(Settings()).(calsweep := kind, calsweepverbose := verbose)
      ensures filename == old(filename)
    {
      calsweep := kind;
      calsweepverbose := verbose;
    }

    method SetMasterCal(file: Option<string> := None)
      modifies this
      ensures Settings() == old(Settings()).(mastercal := file) && filename == old(filename)
    {
      mastercal := file;
    }

    method SetTimePerPoint(tpp: int)
      modifies this
      ensures Settings() == old(Settings()).(timeperpoint := tpp) && filename == old(filename)
    {
      timeperpoint := tpp;
    }

    method SetFileName(name: string)
      modifies this
      ensures Settings() == old(Settings()) && filename == name
    {
      filename := name;
    }

    method SetStopFreq(freq: int)
      modifies this
      ensures Settings() == old(Settings()).(highfreq := freq) && filename == old(filename)
    {
      highfreq := freq;
    }

    /** Appends at the end, keeping the earlier parameters in order. */
    method AddSweepParameter(source: string)
      modifies this
      ensures Settings() == old(Settings()).(parameters := old(parameters) + [source])
      ensures filename == old(filename)
    {
      parameters := parameters + [source];
    }

    method SetScale(s: string := "Log")
      modifies this
      ensures Settings() == old(Settings()).(scale := s) && filename == old(filename)
    {
      scale := s;
    }

    /** Replaces the whole parameter list. */
    method SetSweepParameters(params: seq<string> := ["s11", "s12"])
      modifies this
      ensures Settings() == old(Settings()).(parameters := params) && filename == old(filename)
    {
      parameters := params;
    }

    method SetNumPoints(points: int)
      modifies this
      ensures Settings() == old(Settings()).(numpoints := points) && filename == old(filename)
    {
      numpoints := points;
    }

    /** The strings written to the script file, one per `file.write` call. */
    method Sweep() returns (writes: seq<string>)
      ensures Concat(writes) == Concat(ScriptLines(Settings(), filename))
    {
      var s := Settings();
      writes := HeaderWrites(s);
      if |parameters| != 0 {
        var sweep := SweepWrites(parameters);
        var saves := SaveWrites(filename, parameters);
        SweepText(s, filename, writes, sweep, saves);
        writes := writes + sweep + saves;
      } else {
        ScriptText(s, filename);
      }
    }
  }

  lemma SweepText(s: Settings, filename: string, header: seq<string>, sweep: seq<string>, saves: seq<string>)
    requires s.parameters != []
    requires Concat(header) == Concat(HeaderLines(s))
    requires Concat(sweep) == SweepLine(s.parameters)
    requires Concat(saves) == Concat(WriteLines(filename, s.parameters))
    ensures Concat(header + sweep + saves) == Concat(ScriptLines(s, filename))
  {
    ConcatAppend(header, sweep);
    ConcatAppend(header + sweep, saves);
    ScriptText(s, filename);
    Associative(Concat(header), Concat(sweep), Concat(saves));
  }

  /** The script text, group by group. */
  lemma ScriptText(s: Settings, filename: string)
    ensures Concat(ScriptLines(s, filename)) ==
            Concat(HeaderLines(s))
            + (if s.parameters == [] then []
               else SweepLine(s.parameters) + Concat(WriteLines(filename, s.parameters)))
  {
    if s.parameters == [] {
      assert ScriptLines(s, filename) == HeaderLines(s);
    } else {
      var sweep, saves := [SweepLine(s.parameters)], WriteLines(filename, s.parameters);
      ConcatAppend(HeaderLines(s) + sweep, saves);
      ConcatAppend(HeaderLines(s), sweep);
      ConcatSingle(SweepLine(s.parameters));
      Associative(Concat(HeaderLines(s)), SweepLine(s.parameters), Concat(saves));
    }
  }

  /** The calibration direction is stored but never read: the script is the same whatever
      it is. */
  lemma CalibrationDirectionUnused(s: Settings, filename: string, dir: Option<string>)
    ensures ScriptLines(s.(caldirection := dir), filename) == ScriptLines(s, filename)
  {
  }

  /** The command words of the script, line by line. */
  function ScriptVerbList(s: Settings): seq<string>
  {
    CalibrationVerbs(s) + ConfigurationVerbs
    + (if s.parameters == [] then [] else ["sweep"] + seq(|s.parameters|, _ => "writes1p"))
  }

  /** Which commands appear, and in which order: `loadmastercal` iff a master calibration is
      set, then `loadcal` iff a calibration file is set, then `calsweep` iff a calibration sweep
      is set, then `range`, `frame`, `timeperpoint`, `setTXpower`, and, only with a non-empty
      parameter list, one `sweep` and one `writes1p` per parameter. */
  lemma ScriptVerbs(s: Settings, filename: string)
    ensures Verbs(ScriptLines(s, filename)) == ScriptVerbList(s)
  {
    HeaderLinesVerbs(s);
    if s.parameters != [] {
      var sweep, saves := [SweepLine(s.parameters)], WriteLines(filename, s.parameters);
      SweepLineVerbs(s.parameters);
      WriteLinesVerbs(filename, s.parameters);
      VerbsAppend(HeaderLines(s), sweep);
      VerbsAppend(HeaderLines(s) + sweep, saves);
    }
  }

  /** The header lines (laid out as `HeaderLayout` states) come first; after them, only with a
      non-empty parameter list, the `sweep` line and one `writes1p` line per parameter, in list
      order. */
  lemma ScriptLayout(s: Settings, filename: string)
    ensures var lines, n := ScriptLines(s, filename), |HeaderLines(s)|;
      && lines[..n] == HeaderLines(s)
      && |lines| == n + (if s.parameters == [] then 0 else 1 + |s.parameters|)
      && (s.parameters != [] ==> lines[n] == SweepLine(s.parameters))
      && (forall i :: 0 <= i < |s.parameters| ==> lines[n + 1 + i] == WriteS1P(filename, s.parameters[i]))
  {
    if s.parameters != [] {
      SweepSectionLayout(s, filename);
    }
  }

  /** `ScriptLayout` for a non-empty parameter list. */
  lemma SweepSectionLayout(s: Settings, filename: string)
    requires s.parameters != []
    ensures var lines, n := ScriptLines(s, filename), |HeaderLines(s)|;
      && lines[..n] == HeaderLines(s)
      && |lines| == n + 1 + |s.parameters|
      && lines[n] == SweepLine(s.parameters)
      && (forall i :: 0 <= i < |s.parameters| ==> lines[n + 1 + i] == WriteS1P(filename, s.parameters[i]))
  {
    var header, sweep, saves := HeaderLines(s), SweepLine(s.parameters), WriteLines(filename, s.parameters);
    Layout(header, sweep, saves);
  }

  lemma VerbListPresence(s: Settings)
    ensures var verbs := ScriptVerbList(s);
      && ("loadmastercal" in verbs <==> s.mastercal.Some?)
      && ("loadcal" in verbs <==> s.calfile.Some?)
      && ("calsweep" in verbs <==> s.calsweep.Some?)
      && ("sweep" in verbs <==> s.parameters != [])
      && ("writes1p" in verbs <==> s.parameters != [])
      && "exitVNWA" !in verbs
  {
    var tail := if s.parameters == [] then [] else ["sweep"] + seq(|s.parameters|, _ => "writes1p");
    assert forall w :: w in tail ==> w == "sweep" || w == "writes1p";
    CalibrationPresence(s, tail);
    if s.parameters != [] {
      assert tail[0] == "sweep" && tail[1] == "writes1p";
    }
    LaterWordsAbsent(s);
    NoExitWord(s, tail);
  }

  /** The `loadmastercal`, `loadcal`, `calsweep` and `sweep` commands each appear exactly
      when their field is set, and the script never ends the analyser with `exitVNWA`. */
  lemma ScriptCommandsPresent(s: Settings, filename: string)
    ensures var verbs := Verbs(ScriptLines(s, filename));
      && ("loadmastercal" in verbs <==> s.mastercal.Some?)
      && ("loadcal" in verbs <==> s.calfile.Some?)
      && ("calsweep" in verbs <==> s.calsweep.Some?)
      && ("sweep" in verbs <==> s.parameters != [])
      && ("writes1p" in verbs <==> s.parameters != [])
      && "exitVNWA" !in verbs
  {
    ScriptVerbs(s, filename);
    VerbListPresence(s);
  }
}
