# SoundCath catheter tester, modelled in Dafny

SoundCath is a bench tester for ultrasound catheters. A Tk front end chooses a channel, or all
channels (32, 64 or 96), and runs three tests on each:

- a pulse-echo test, measured with an oscilloscope;
- an impedance test and a dongle test, measured with a vector network analyser (VNA).

It keeps the results in a map of per-channel slots and writes them to an Excel report. Relays
route the channels; an Arduino drives them and receives the channel number as one byte.

This project models the deterministic parts of that code and proves what they do:

- **VNA sweep script** (`Vna` for src/VNA.py, `TesterBackend` for the revision in
  src/TesterBackend.py; `VnaCommands`/`VnaWrites` hold what the two share).
  - Setters change one field each.
  - `Sweep` builds the analyser's command script from the fields.
  - The method returns the strings it passes to `file.write`, one per call.
  - Its contract ties their concatenation to `ScriptLines`, the script as a list of lines.
  - Lemmas state which commands appear, under which condition and in which order, and what
    each line holds.
- **Waveform windowing** (`Windowing`, used by `Scope` for src/Oscilloscope.py and by
  `TesterBackend`).
  - `WindowWaveform` computes the sample counts `n` and `d` by truncating division.
  - It slices both lists with Python's `[n : n + d]` and replaces the stored trace.
  - Python slicing (negative bounds, clamping) is modelled in `PySeq`.
- **Relay byte** (`Relay`, used by `TesterBackend.CatheterTester.SetChannel`).
  - `int.to_bytes(1, 'big')` and its inverse.
  - The serial port is a log of bytes sent.
- **Front end bookkeeping** (`FrontEnd`, for `TesterFrontEnd` in src/SoundCath.py).
  - The Up/Down channel counter and its label.
  - `RunTests` and `RunSingleChannelTest` with the `passmap` slots, including Python's
    negative index for channel 0.
  - The all-channels loop, ascending and stoppable, and left early by the first exception.
  - What the test instruments report is a parameter (`Instruments`): for each channel, a row
    or the exception the test raises.
- **Report rules** (`Report`, for the three sheet loops of `GenerateXLSXReport`).
  - Rows holding `None` are skipped.
  - The cells each remaining row fills in are modelled, including the Pass/Fail, dead and
    Open/Short rules.
  - Only passing rows enter the running sums.
  - A bandwidth over a zero centre frequency raises `ZeroDivisionError`.
  - Running past the slots raises `IndexError`.

Some behaviour of the code that the model keeps as written:

- The relay byte is the channel number itself (src/TesterBackend.py:32).
- A pulse-echo row is marked dead exactly when its Vpp is zero (src/SoundCath.py:300).
- A window that runs past the end of the trace is clamped by Python slicing
  (src/Oscilloscope.py:82).
- The window start is a sample count, truncated toward zero and counted from the first sample
  (src/Oscilloscope.py:79-82).
- The Open/Short bounds are the fixed constants 10 pF, 600 pF and 180 pF
  (src/SoundCath.py:341, 378).

## Model

| member | source | states |
|---|---|---|
| Decimal.IntToString | src/SoundCath.py:199 | `str(i)` (also line 38): at least one character, a leading `-` exactly for negative i, then only digits, with no leading zero unless the number is 0 |
| Decimal.IntToStringRoundTrip | src/SoundCath.py:38 | `str(i)` of any integer parses back to `i`, minus sign included |
| Decimal.IntToStringInjective | src/SoundCath.py:199 | different integers are written as different strings |
| PySeq.Slice | src/Oscilloscope.py:82 | Python `s[i:j]`: length is the difference of the clamped, end-relative bounds (empty when they cross), and element k is `s[start + k]` |
| PySeq.Index | src/SoundCath.py:106 | Python `s[i]` is defined iff `-len <= i < len`; a negative `i` reads position `i + len` |
| Vna.ScriptLines | src/VNA.py:61-89 | the script as a list of lines: header, then the sweep line and one save line per parameter only when there are parameters (definition; its properties are the lemmas below) |
| Vna.CalibrationDirectionUnused | src/VNA.py:61-89 | the script is the same whatever the calibration direction, which `SetCalibrationDirection` (lines 30-31) stores but nothing reads |
| TesterBackend.ScriptLines | src/TesterBackend.py:209-236 | this revision's script as a list of lines: header, unconditional sweep line, save lines with the output path, exit line (definition; its properties are the lemmas below) |
| TesterBackend.CalibrationDirectionUnused | src/TesterBackend.py:209-236 | the script is the same whatever the calibration direction, which lines 181-182 store but nothing reads |
| VnaCommands.HeaderLayout | src/VNA.py:64-77 | the calibration lines come first, then `range`, `frame`, `timeperpoint`, `setTXpower`, in that order |
| VnaCommands.WriteLines | src/VNA.py:86-87 | one `writes1p` line per parameter, line i for parameter i |
| VnaCommands.CalibrationLinesVerbs | src/VNA.py:64-72 | the calibration commands are `loadmastercal` iff a master calibration is set, then `loadcal` iff a calibration file is set, then `calsweep` iff a calibration sweep is set |
| VnaCommands.ConfigurationLinesVerbs | src/VNA.py:74-77 | the four configuration lines start with `range`, `frame`, `timeperpoint`, `setTXpower` |
| VnaCommands.CalibrationPresence | src/VNA.py:64-72 | followed only by sweep, save and exit commands, each calibration command occurs exactly when its field is set |
| VnaCommands.NoExitWord | src/VNA.py:89 | a script made of calibration, configuration, `sweep` and `writes1p` commands holds no `exitVNWA` among its `ScriptLines` entries (the written file's lines when no field holds a newline) |
| VnaCommands.SpacedFields | src/VNA.py:80-84 | the parameter list can be read back from the `sweep` line when no parameter holds a space or newline |
| VnaWrites.HeaderWrites | src/VNA.py:64-77 | the writes before the sweep spell out exactly the calibration and configuration lines |
| VnaWrites.CalibrationWrites | src/VNA.py:64-72 | the guarded calibration writes spell out exactly the calibration lines |
| VnaWrites.CalSweepWrites | src/VNA.py:70-72 | `calsweep T`, then `nv\n` (not verbose) or `\n`, with no separator, e.g. "calsweep Opennv" |
| VnaWrites.ConfigurationWrites | src/VNA.py:74-77 | the four unconditional lines, in order |
| VnaWrites.SweepWrites | src/VNA.py:80-84 | `sweep `, each parameter followed by one space, then the newline |
| VnaWrites.SaveWrites | src/VNA.py:86-87 | the loop's writes spell out one `writes1p` line per parameter, in list order |
| Vna.VNA.constructor | src/VNA.py:11-25 | defaults: 1 MHz to 1.3 GHz, 2000 points, "log", 10, 4000, parameters ["s11"], no master calibration or calibration sweep, not verbose, calibration file `C:\VNWA\VNWA.cal`, empty file name |
| Vna.VNA.SetStartFreq | src/VNA.py:27-28 | only `lowfreq` changes |
| Vna.VNA.SetCalibrationDirection | src/VNA.py:30-31 | only `caldirection` changes |
| Vna.VNA.SetCalibrationSweep | src/VNA.py:33-35 | only `calsweep` and `calsweepverbose` change |
| Vna.VNA.SetMasterCal | src/VNA.py:37-38 | only `mastercal` changes |
| Vna.VNA.SetTimePerPoint | src/VNA.py:40-41 | only `timeperpoint` changes |
| Vna.VNA.SetFileName | src/VNA.py:43-44 | only the file name prefix changes |
| Vna.VNA.SetStopFreq | src/VNA.py:46-47 | only `highfreq` changes |
| Vna.VNA.AddSweepParameter | src/VNA.py:49-50 | the parameter is appended at the end; earlier parameters keep their order |
| Vna.VNA.SetScale | src/VNA.py:52-53 | only `scale` changes |
| Vna.VNA.SetSweepParameters | src/VNA.py:55-56 | the whole parameter list is replaced |
| Vna.VNA.SetNumPoints | src/VNA.py:58-59 | only `numpoints` changes |
| Vna.VNA.Sweep | src/VNA.py:61-89 | the text written is exactly the script of the current settings and file name |
| Vna.ScriptText | src/VNA.py:61-89 | the script text is the header, then (only with parameters) the sweep line and the save lines |
| Vna.ScriptVerbs | src/VNA.py:64-87 | the command words, line by line: the calibration commands, the four configuration commands, then `sweep` and one `writes1p` per parameter only when there are parameters |
| Vna.ScriptLayout | src/VNA.py:79-87 | after the header the script holds nothing without parameters; otherwise the sweep line, then line n+1+i saves parameter i as `filename + param + ".s1p"` |
| Vna.SweepSectionLayout | src/VNA.py:79-87 | the same layout when the parameter list is non-empty |
| Vna.VerbListPresence | src/VNA.py:64-89 | in the word list, each calibration command iff its field is set; `sweep` and `writes1p` iff there are parameters; never `exitVNWA`; the words are those of the `ScriptLines` entries, which are the written file's lines when no field holds a newline |
| Vna.ScriptCommandsPresent | src/VNA.py:64-89 | the same presence facts, stated for the `ScriptLines` entries, which are the written file's lines when no field holds a newline |
| TesterBackend.VNA.constructor | src/TesterBackend.py:162-176 | this revision's defaults: stop frequency 100 MHz, 400 points, parameters ["s11","s12"], output path `..\data\`, the rest as in src/VNA.py |
| TesterBackend.VNA.SetStartFreq | src/TesterBackend.py:178-179 | only `lowfreq` changes |
| TesterBackend.VNA.SetCalibrationDirection | src/TesterBackend.py:181-182 | only `caldirection` changes |
| TesterBackend.VNA.SetCalibrationSweep | src/TesterBackend.py:184-186 | only `calsweep` and `calsweepverbose` change |
| TesterBackend.VNA.SetMasterCal | src/TesterBackend.py:188-189 | only `mastercal` changes |
| TesterBackend.VNA.SetTimePerPoint | src/TesterBackend.py:191-192 | only `timeperpoint` changes |
| TesterBackend.VNA.SetStopFreq | src/TesterBackend.py:194-195 | only `highfreq` changes |
| TesterBackend.VNA.AddSweepParameter | src/TesterBackend.py:197-198 | appended at the end, earlier parameters kept in order |
| TesterBackend.VNA.SetScale | src/TesterBackend.py:200-201 | only `scale` changes |
| TesterBackend.VNA.SetSweepParameters | src/TesterBackend.py:203-204 | the whole parameter list is replaced |
| TesterBackend.VNA.SetNumPoints | src/TesterBackend.py:206-207 | only `numpoints` changes |
| TesterBackend.VNA.Sweep | src/TesterBackend.py:209-236 | the text written is exactly this revision's script: header, unconditional sweep line, save lines with the output path, `exitVNWA` |
| TesterBackend.SweepText | src/TesterBackend.py:209-236 | the four groups of writes concatenate to the script text |
| TesterBackend.ScriptVerbs | src/TesterBackend.py:212-236 | the command words: calibration commands, the four configuration commands, `sweep`, one `writes1p` per parameter, `exitVNWA` |
| TesterBackend.TailWords | src/TesterBackend.py:227-236 | after the configuration commands: `sweep` always, `writes1p` iff there are parameters, `exitVNWA` last |
| TesterBackend.VerbListPresence | src/TesterBackend.py:212-236 | in the word list, each calibration command iff its field is set, `sweep` always, `writes1p` iff there are parameters, and `exitVNWA` is last; the words are those of the `ScriptLines` entries, which are the written file's lines when no field holds a newline |
| TesterBackend.ScriptCommandsPresent | src/TesterBackend.py:212-236 | the same presence facts, stated for the `ScriptLines` entries, which are the written file's lines when no field holds a newline |
| TesterBackend.ScriptLayout | src/TesterBackend.py:212-236 | header first, then the sweep line, line n+1+i saves parameter i as `path + param + ".s1p"`, and the exit command is the last line |
| TesterBackend.EmptyParametersBareSweep | src/TesterBackend.py:227-234 | with no parameters the script holds the bare line "sweep \n" and no save line |
| TesterBackend.ScriptEndsWithExit | src/TesterBackend.py:236 | the script text ends in `exitVNWA` with no newline after it |
| TesterBackend.Oscilloscope.constructor | src/TesterBackend.py:46-47 | no waveform and no spectrum stored |
| TesterBackend.Oscilloscope.WindowWaveform | src/TesterBackend.py:105-111 | the result is the window of the stored trace; on success it replaces the stored trace, on an exception the trace is kept |
| TesterBackend.CatheterTester.SetChannel | src/TesterBackend.py:31-32 | succeeds iff 0 <= channel <= 255, then exactly one byte equal to the channel is sent; otherwise nothing is sent |
| Relay.ToBytes | src/TesterBackend.py:32 | `int.to_bytes(length, 'big')`: `OverflowError` outside 0 .. 256^length - 1, else the big-endian bytes (definition; see the round trips) |
| Relay.BigEndianRoundTrip | src/TesterBackend.py:32 | decoding a big-endian encoding gives the value back |
| Relay.FromBytesRoundTrip | src/TesterBackend.py:32 | every byte string is the big-endian encoding of its value |
| Relay.ChannelByte | src/TesterBackend.py:32 | `to_bytes(1, 'big')` succeeds exactly for 0..255 and yields the single byte equal to the value |
| Windowing.Window | src/Oscilloscope.py:77-83 | `WindowWaveform` on the stored trace (also src/TesterBackend.py:105-111): the error checks, then both lists sliced `[n : n + d]` (definition; its properties are the lemmas below) |
| Windowing.Truncate | src/Oscilloscope.py:79-80 | `int(x)` truncates toward zero: within one unit of x, on the side of zero |
| Windowing.WindowErrors | src/Oscilloscope.py:78-82 | windowing raises exactly when no trace is stored, there are fewer than two time samples, or the first two time stamps are equal; otherwise it succeeds, out-of-range windows included |
| Windowing.WindowElements | src/Oscilloscope.py:82 | each output sample is the input sample at the slice start plus its position, for Time and Voltage; equal input lengths give equal output lengths |
| Windowing.WindowLength | src/Oscilloscope.py:82 | for n >= 0 and n+d >= 0, the output length is max(0, min(len, n+d) - min(len, n)) |
| Windowing.WindowFromStartIdempotent | src/Oscilloscope.py:77-83 | a window from time zero applied to its own result gives the same result, provided time runs forward (`Time[1] > Time[0]`), the window size is not negative, and the result still has two samples; with a negative size a second window shortens the trace further |
| Windowing.WholeTraceWindow | src/Oscilloscope.py:82 | a window from time zero at least as long as the trace returns the trace unchanged |
| Scope.Oscilloscope.constructor | src/Oscilloscope.py:15-16 | `Waveform` and `fft` both start as None |
| Scope.Oscilloscope.WindowWaveform | src/Oscilloscope.py:77-83 | defaults 0.0 and 5.0 us; the result is the window of the stored trace, which it then replaces, or the exception, with the trace kept |
| Report.VerdictAndDeadCells | src/SoundCath.py:299-300 | the verdict cell is "Pass" iff the row passed, else "Fail"; the dead cell is "True" iff Vpp is zero, else empty |
| Report.OpenShort | src/SoundCath.py:341 | the Open/Short cell (also line 378) for an upper bound (definition; see the next two rows) |
| Report.OpenShortCell | src/SoundCath.py:341 | "Open" iff 10 pF < C < upper bound, else "Short" iff C < 0, else empty |
| Report.OpenShortSheets | src/SoundCath.py:378 | negative C is a short on both sheets; 180 pF <= C < 600 pF is open on the impedance sheet only; 0 <= C <= 10 pF is unclassified on both; open on the dongle sheet implies open on the impedance sheet |
| Report.PulseEchoCellListRows | src/SoundCath.py:293-301 | sheet row k gets exactly the cells of slot k, or keeps its old cells when the slot holds None |
| Report.PassingPulseEcho | src/SoundCath.py:303-307 | the rows that enter the averages are exactly the complete, passed ones |
| Report.PulseEchoSumsPassing | src/SoundCath.py:303-307 | the running sums over a sheet equal the sums over its passing rows alone, and the count is their number |
| Report.FillPulseEcho | src/SoundCath.py:291-307 | `ZeroDivisionError` iff a visited complete row has centre frequency 0; `IndexError` iff the loop runs past the slots first; otherwise the cells and sums of the first mc rows |
| Report.ImpedanceCellListRows | src/SoundCath.py:334-341 | impedance sheet row k gets exactly the cells of slot k (capacitance in pF, verdict, Open/Short with 600 pF) |
| Report.DongleCellListRows | src/SoundCath.py:371-378 | dongle sheet row k gets exactly the cells of slot k (capacitance in pF, impedance, verdict, Open/Short with 180 pF) |
| Report.PassingCapacitance | src/SoundCath.py:343-346 | the rows that enter the averages are exactly the complete, passed ones |
| Report.CapacitanceSumsPassing | src/SoundCath.py:343-346 | capacitance and impedance sums over a sheet equal those over its passing rows, and the count is their number |
| Report.FillImpedance | src/SoundCath.py:332-346 | raises `IndexError` iff mc exceeds the slots; otherwise the cells and sums of the first mc rows |
| Report.FillDongle | src/SoundCath.py:369-383 | raises `IndexError` iff mc exceeds the slots; otherwise the cells and sums of the first mc rows |
| FrontEnd.Label | src/SoundCath.py:199 | the label text (also lines 38 and 207) "Channel " + `str(channel + 1)` (definition; see the next row) |
| FrontEnd.LabelShowsChannel | src/SoundCath.py:38 | the label is "Channel " followed by a number that parses back to channel + 1, so distinct channels get distinct labels |
| FrontEnd.InitialPassMap | src/SoundCath.py:123 | mc slots per kind, none for mc <= 0; every slot is the empty `[False, None, None]` (pulse echo `[False, None, None, None]`) |
| FrontEnd.StoreSlot | src/SoundCath.py:106-112 | storing channel c succeeds iff 1 - len <= c <= len; channel c goes to slot c - 1, channel 0 to the last slot, other slots unchanged |
| FrontEnd.InitialRecorded | src/SoundCath.py:123 | the fresh map is the map of a loop that has reached no channel |
| FrontEnd.StoreNext | src/SoundCath.py:106 | storing channel k's result into the slots of channels 0..k-1 yields the slots of channels 0..k |
| FrontEnd.RunChannel | src/SoundCath.py:101-112 | one channel on a results map: each selected test in order, its row stored at Python index c - 1, the first exception ending the channel (definition; see `RunChannelEffect`) |
| FrontEnd.Completed | src/SoundCath.py:101-112 | the number of selected kinds that complete before the first whose test raises or whose slot is missing: all before it complete, it does not |
| FrontEnd.RunChannelEffect | src/SoundCath.py:101-112 | on any results map and any channel: the tests run up to and including the first that does not complete; that one's exception (its own, or `IndexError` from the store) ends the channel; each completed kind's list has its row at index c - 1; every other list is unchanged; with no exception, every selected test ran |
| FrontEnd.RecordStep | src/SoundCath.py:139-143 | one more channel of the loop raises exactly when one of its selected tests raises, since every slot exists; when none raises, it runs the selected kinds on that channel and records only that channel |
| FrontEnd.FullRunSlots | src/SoundCath.py:139-143 | after a full loop in which no test raised, slot j holds channel j + 1's row and the last slot holds channel 0's; unselected kinds keep empty slots |
| FrontEnd.ChannelRunsKinds | src/SoundCath.py:101-112 | one channel runs every selected kind once, on that channel |
| FrontEnd.SweepRunsOrder | src/SoundCath.py:139-143 | the loop's runs have non-decreasing channels, only channels 0..k-1 appear, and each with every selected kind |
| FrontEnd.SweepRunsCount | src/SoundCath.py:139-143 | a loop that reaches k channels runs k times the number of selected kinds |
| FrontEnd.SweepRunsAt | src/SoundCath.py:139-143 | run j of channel c is entry c * m + j of the log (m selected kinds): channels strictly in ascending order, each exactly once, its kinds in order |
| FrontEnd.Reached | src/SoundCath.py:139-141 | the number of channels before the first check that sees the stop flag: no check before it sees the flag, and unless every channel was reached, the check at it does |
| FrontEnd.FirstFailing | src/SoundCath.py:139-143 | the first reached channel on which a selected test raises, or k: every earlier channel succeeds, and it fails |
| FrontEnd.Sweep | src/SoundCath.py:139-143 | the state an all-channels loop leaves: no exception exactly when no reached channel fails, and then every reached channel's rows are stored |
| FrontEnd.SweepEndsAt | src/SoundCath.py:139-143 | where the loop leaves: at a failing channel after the earlier ones succeeded, with that channel's partial stores and runs and its exception; or after the last reached channel with all of them recorded |
| FrontEnd.TesterFrontEnd.constructor | src/SoundCath.py:32-65 | channel -1, 64 channels, label "Channel 0", no test selected, not stopped, no results map |
| FrontEnd.TesterFrontEnd.SelectTests | src/SoundCath.py:59-62 | the check boxes set the selection and the all-channels flag |
| FrontEnd.TesterFrontEnd.SelectChannelCount | src/SoundCath.py:65-69 | the radio buttons set the channel count to 32, 64 or 96 |
| FrontEnd.TesterFrontEnd.IncChannel | src/SoundCath.py:195-199 | steps up iff channel < mc, and the label then shows channel + 1; the channel stays in [-1, mc] |
| FrontEnd.TesterFrontEnd.DecChannel | src/SoundCath.py:203-207 | steps down iff channel >= 0, and the label then shows channel + 1; the channel stays in [-1, mc] |
| FrontEnd.TesterFrontEnd.RunSingleChannelTest | src/SoundCath.py:101-112 | the results map and runs are exactly `RunChannel` on the old map: pulse echo, impedance, dongle in that order, each only if selected; a test's exception, or `IndexError` from an out-of-range store, ends the call after that test ran; with no results map yet the first selected test runs, and unless it raises, its store raises `TypeError` |
| FrontEnd.TesterFrontEnd.RunTests | src/SoundCath.py:114-154 | with nothing selected nothing changes; otherwise the map is reset to mc empty slots; then either the all-channels loop (`Sweep`) runs, or only the selected channel is run on the fresh map |
| FrontEnd.TesterFrontEnd.SweepChannels | src/SoundCath.py:139-146 | the loop leaves exactly the `Sweep` state for the channels reached before Stop: on success the flag is cleared; on an exception the slots stored so far stay, the exception is passed on and the flag is left as it was |

## Left out

- VnaCommands.NoExitWord, Vna.VerbListPresence, Vna.ScriptCommandsPresent, TesterBackend.VerbListPresence, TesterBackend.ScriptCommandsPresent: these speak of the entries of `ScriptLines`. A field holding a newline, such as a master calibration `"a\nexitVNWA"`, splits its entry into several lines of the written file, and no command word is stated for those lines.
- The Tk GUI: widgets, drawing, the capture pop-up, the ready label and the stop/capture buttons' placement (src/SoundCath.py:18-96), the worker thread pool, and the busy-wait on the capture trigger (src/SoundCath.py:185-186). These are UI and concurrency. A press of Stop is the parameter `stopPressAt`: the first loop check that sees the flag set.
- The test instruments. `RunPulseEchoTest`, `RunImpedanceTest` and `RunDongleTest` call into the back end (src/SoundCath.py:176-193). As written those calls do not return rows: `PulseEchoTest` gets four arguments for three parameters and raises `TypeError` (src/SoundCath.py:189, src/TesterBackend.py:28), `DongleTest` does not exist and raises `AttributeError` (src/SoundCath.py:193), and `ImpedanceTest` is a stub returning `None` (src/TesterBackend.py:25-26). What each test yields per channel, a row or an exception, is the `Instruments` parameter; a test that returns `None` instead of a row is not representable. The waits before a pulse-echo test and between channels (`time.sleep`) are not modelled.
- FrontEnd.TesterFrontEnd.SweepChannels: the Stop flag is observed only at the loop's checks. A press during the test that then raises leaves the source's flag set; the model's flag stays as it was before that test.
- Workbook handling in `GenerateXLSXReport`:
  - loading, creating and saving workbooks, template copying and sheet lookup (including the misspelt `dongleresport` at src/SoundCath.py:360);
  - cell colouring;
  - the `.2f` number formatting. A cell holds the real value the source formats.
- The average cells written inside the report loops (src/SoundCath.py:315-317, 354-355, 391-392). They divide by a count that may be zero. The impedance and dongle loops write theirs to `pereport`, the pulse-echo sheet, which is unbound (`UnboundLocalError`) when pulse echo is not selected. The dongle sheet `donglereport` stays None when the workbook already has a Dongle sheet, because line 360 assigns the misspelt `dongleresport`. The running sums they read are modelled.
- Report.FillPulseEcho, Report.FillImpedance, Report.FillDongle: because those average cells are left out, these do not capture that such a write can raise and end the loop early.
- The report call inside `RunTests` (src/SoundCath.py:148-151). Any exception from it is swallowed there. The file name and directory handling (src/SoundCath.py:125-128) is file-system I/O.
- The instruments a run would need: VISA discovery, `CaptureWaveform`, `CalculateFFT` (scipy floating point), `ConvertS1PToCSV` (file I/O and complex arithmetic), the CSV writers, and the Arduino serial transport (src/Arduino.py, src/TesterBackend.py:126-159). Only the byte `SetChannel` sends is modelled, as an append to the log `sent`.
- The `os.system` launch of the analyser (src/VNA.py:91, src/TesterBackend.py:238), and the `executable` and `scriptfile` fields that only it uses.
- FrontEnd.TesterFrontEnd.IncChannel, FrontEnd.TesterFrontEnd.DecChannel: the call `self.backend.SetChannel(self.channel, mc)` after the label update takes one argument too many (src/SoundCath.py:200, 208) and raises `TypeError`, so the line after it is never reached; that line would fail as well, since the attribute is `Arduino`, not `arduino` (src/TesterBackend.py:16). Only the counter and the label are modelled.
- Python floats are modelled as reals. Rounding at the 10 pF, 180 pF and 600 pF bounds and in the windowing quotients is not captured, nor are infinities and NaN.
- Python list aliasing is not modelled: `SetSweepParameters` keeps the caller's list, and its default list is shared between calls. The model copies values.
- The back end's oscilloscope starts with `{}` rather than `None`. Every windowing attempt on it raises, so it is modelled as `None`.
- In the model each `passmap` slot's verdict is a boolean, and a trace always has both its Time and Voltage lists. The source's dynamic types allow other shapes.
