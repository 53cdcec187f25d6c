/** The oscilloscope wrapper of src/Oscilloscope.py, reduced to its stored trace and spectrum
    and to the windowing that replaces the stored trace. */
module Scope {
  import opened Wrappers
  import opened Windowing

  class Oscilloscope {
    /** The last captured (or windowed) trace; `None` until something is stored. */
    var waveform: Option<Waveform>
    /** The last computed spectrum; `None` until an FFT is stored. */
    var fft: Option<Spectrum>

    constructor ()
      ensures waveform == None && fft == None
    {
      waveform := None;
      fft := None;
    }

    /** Replaces the stored trace by its window and returns it; when windowing raises, the
        stored trace is left as it was. */
    method WindowWaveform(initialUs: real := 0.0, windowSizeUs: real := 5.0)
      returns (r: Result<Waveform, WindowError>)
      modifies this`waveform
      ensures r == Window(old(waveform), initialUs, windowSizeUs)
      ensures waveform == if r.Success? then Some(r.value) else old(waveform)
    {
      r := Window(waveform, initialUs, windowSizeUs);
      if r.Success? {
        waveform := Some(r.value);
      }
    }
  }
}
