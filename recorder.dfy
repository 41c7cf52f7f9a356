/**
 * The recording loop, `GpsRecorder`: create the log file once, then, cycle
 * after cycle, read the whole log, observe one window, append the
 * observation and rewrite the whole log.
 */
module Recorder {
  import opened Wrappers
  import opened Gpsd
  import opened Observations
  import opened Files
  import opened Log
  import opened Serde

  /** Rust's `u64`, the type of the `--interval` argument. */
  newtype u64 = x: int | 0 <= x < 0x1_0000_0000_0000_0000

  const I64_MIN: int := -0x8000_0000_0000_0000
  const I64_MAX: int := 0x7fff_ffff_ffff_ffff
  /** The largest whole number of seconds chrono's `Duration::seconds` accepts (`i64::MAX` milliseconds). */
  const MaxDurationSeconds: int := I64_MAX / 1000

  /** The interval, in seconds, used when `--interval` is not given. */
  const DefaultInterval: u64 := 10

  /** What ends the name of every log file. */
  const Suffix: string := "_GPS_data.json"

  /** Why the logger stops; every one of them ends the process. */
  datatype Fatal =
    | Handshake             // `handshake(...).unwrap()`
    | DurationOutOfRange    // `Duration::seconds` panics
    | Store(store: StoreError)

  /** `args.interval.unwrap_or(10)`. */
  function IntervalOrDefault(arg: Option<u64>): (secs: u64)
    ensures arg.None? ==> secs == DefaultInterval
    ensures arg.Some? ==> secs == arg.value
  {
    match arg
    case None => DefaultInterval
    case Some(secs) => secs
  }

  /** `x as i64`: the 64 bits of `x` read as a two's-complement number. */
  function AsI64(x: u64): (i: int)
    ensures I64_MIN <= i <= I64_MAX
    ensures (x as int - i) % 0x1_0000_0000_0000_0000 == 0
  {
    if x as int <= I64_MAX then x as int else x as int - 0x1_0000_0000_0000_0000
  }

  /** chrono's `Duration::seconds`, which panics outside `i64::MAX` milliseconds either way. */
  function DurationSeconds(secs: int): (r: Result<int, Fatal>)
    ensures r.Ok? <==> -MaxDurationSeconds <= secs <= MaxDurationSeconds
    ensures r.Ok? ==> r.value == secs
    ensures r.Err? ==> r.error == DurationOutOfRange
  {
    if -MaxDurationSeconds <= secs <= MaxDurationSeconds then Ok(secs) else Err(DurationOutOfRange)
  }

  /** `Duration::seconds(interval as i64)`: the recorder's window, in seconds. */
  function IntervalDuration(interval: u64): (r: Result<int, Fatal>)
    ensures r.Ok? <==> interval as int <= MaxDurationSeconds ||
                       0x1_0000_0000_0000_0000 - MaxDurationSeconds <= interval as int
    ensures r.Ok? ==> (interval as int - r.value) % 0x1_0000_0000_0000_0000 == 0
    ensures r.Err? ==> r.error == DurationOutOfRange
  {
    DurationSeconds(AsI64(interval))
  }

  /**
   * Small intervals are taken as they are; larger ones up to about 2^64 make
   * chrono panic; the very largest wrap round to a negative window.
   */
  lemma IntervalCases(interval: u64)
    ensures interval as int <= MaxDurationSeconds ==> IntervalDuration(interval) == Ok(interval as int)
    ensures MaxDurationSeconds < interval as int < 0x1_0000_0000_0000_0000 - MaxDurationSeconds ==>
              IntervalDuration(interval) == Err(DurationOutOfRange)
    ensures 0x1_0000_0000_0000_0000 - MaxDurationSeconds <= interval as int ==>
              IntervalDuration(interval) == Ok(interval as int - 0x1_0000_0000_0000_0000) &&
              IntervalDuration(interval).value < 0
  {
  }

  /** The default interval is ten seconds. */
  lemma DefaultIntervalIsTenSeconds()
    ensures IntervalDuration(IntervalOrDefault(None)) == Ok(10)
  {
  }

  /** `format!("{}_GPS_data.json", stamp)`, where `stamp` is the formatted start time. */
  function FileName(stamp: string): (name: string)
    ensures |name| == |stamp| + |Suffix|
    ensures name[..|stamp|] == stamp && name[|stamp|..] == Suffix
  {
    stamp + Suffix
  }

  /** `path.join(filename)`: the log file of a run started at `stamp`. */
  function OutputFile(dir: Path, stamp: string): (p: Path)
    ensures p != [] && Parent(p) == dir
    ensures p[|p| - 1] == FileName(stamp)
  {
    Join(dir, FileName(stamp))
  }

  /**
   * Runs with different start stamps write different files. The stamp counts
   * whole seconds, so two runs started in the same second share one file.
   */
  lemma OutputFileInjective(dir: Path, a: string, b: string)
    requires OutputFile(dir, a) == OutputFile(dir, b)
    ensures a == b
  {
    assert FileName(a) == OutputFile(dir, a)[|dir|];
    assert |a| == |b|;
    assert a == FileName(a)[..|a|];
  }

  /**
   * One window of `observe`: the clock reading `GpsData::new` takes at its
   * start, and the results `get_data` yields until the window closes.
   */
  datatype Window = Window(start: string, events: seq<Reading>)

  /** The observation a window produces. */
  function Observed(w: Window): Observation {
    Accumulated(Fresh(w.start), w.events)
  }

  /** The observations of consecutive windows, in order, one per window. */
  function Recorded(ws: seq<Window>): (log: seq<Observation>)
    ensures |log| == |ws|
    ensures forall i {:trigger log[i]} :: 0 <= i < |ws| ==> log[i] == Observed(ws[i])
    decreases |ws|
  {
    if ws == [] then [] else [Observed(ws[0])] + Recorded(ws[1..])
  }

  /** One turn of the loop in `record`, on the log file's contents. */
  function Cycle(codec: Codec, file: Option<string>, w: Window): (r: Result<string, StoreError>)
    ensures r.Err? <==> Load(codec, file).Err?
    ensures r.Err? ==> r.error == Load(codec, file).error
  {
    match Load(codec, file)
    case Err(e) => Err(e)
    case Ok(log) => Ok(codec.encode(log + [Observed(w)]))
  }

  /** The log file after some cycles, and whether they all went through. */
  datatype Outcome = Outcome(file: Option<string>, result: Result<(), StoreError>)

  /** The cycles of `record` over the windows `ws`; the first failure stops them. */
  function Run(codec: Codec, file: Option<string>, ws: seq<Window>): (out: Outcome)
    ensures out.result.Err? ==> ws != [] && out.file.Some? == file.Some?
    decreases |ws|
  {
    if ws == [] then Outcome(file, Ok(()))
    else
      match Cycle(codec, file, ws[0])
      case Err(e) => Outcome(file, Err(e))
      case Ok(text) => Run(codec, Some(text), ws[1..])
  }

  /** A cycle on a file holding `log` leaves the file holding `log` and one more observation. */
  lemma CycleAppends(codec: Codec, file: Option<string>, log: seq<Observation>, w: Window)
    requires codec.RoundTrips()
    requires Load(codec, file) == Ok(log)
    ensures Cycle(codec, file, w) == Ok(codec.encode(log + [Observed(w)]))
    ensures Load(codec, Some(Cycle(codec, file, w).value)) == Ok(log + [Observed(w)])
  {
    LoadWritten(codec, log + [Observed(w)]);
  }

  /** A file that cannot be read stops the first cycle, and the file is left as it was. */
  lemma UnreadableFileIsFatal(codec: Codec, file: Option<string>, ws: seq<Window>)
    requires Load(codec, file).Err? && ws != []
    ensures Run(codec, file, ws) == Outcome(file, Err(Load(codec, file).error))
  {
  }

  /** A cycle that goes through hands the rest of the windows its new file. */
  lemma RunContinues(codec: Codec, file: Option<string>, ws: seq<Window>)
    requires ws != [] && Cycle(codec, file, ws[0]).Ok?
    ensures Run(codec, file, ws) == Run(codec, Some(Cycle(codec, file, ws[0]).value), ws[1..])
  {
  }

  /** Cycles on a file holding `log` all succeed, and each rewrites it with one more observation. */
  lemma {:induction false} RunAppends(codec: Codec, file: Option<string>, log: seq<Observation>, ws: seq<Window>)
    requires codec.RoundTrips()
    requires Load(codec, file) == Ok(log)
    ensures Run(codec, file, ws) ==
              Outcome(if ws == [] then file else Some(codec.encode(log + Recorded(ws))), Ok(()))
    decreases |ws|
  {
    if ws != [] {
      var next := log + [Observed(ws[0])];
      CycleAppends(codec, file, log, ws[0]);
      RunContinues(codec, file, ws);
      RunAppends(codec, Some(codec.encode(next)), next, ws[1..]);
      assert Recorded(ws) == [Observed(ws[0])] + Recorded(ws[1..]);
      assert log + Recorded(ws) == next + Recorded(ws[1..]);
      if ws[1..] == [] {
        assert next + Recorded(ws[1..]) == next;
      }
    }
  }

  /** After the cycles, the file reads back as `log` followed by one observation per window. */
  lemma RunLoads(codec: Codec, file: Option<string>, log: seq<Observation>, ws: seq<Window>)
    requires codec.RoundTrips()
    requires Load(codec, file) == Ok(log)
    ensures Run(codec, file, ws).result == Ok(())
    ensures Load(codec, Run(codec, file, ws).file) == Ok(log + Recorded(ws))
  {
    RunAppends(codec, file, log, ws);
    if ws == [] {
      assert log + Recorded(ws) == log;
    } else {
      LoadWritten(codec, log + Recorded(ws));
    }
  }

  /**
   * From the freshly created empty file: after k cycles the log holds exactly
   * k observations, and cycle k + 1 keeps those k unchanged and in order and
   * adds its own at the end.
   */
  lemma HistoryPreserved(codec: Codec, ws: seq<Window>, k: nat)
    requires codec.RoundTrips()
    requires k < |ws|
    ensures Load(codec, Run(codec, Some([]), ws[..k]).file).Ok?
    ensures Load(codec, Run(codec, Some([]), ws[..k + 1]).file).Ok?
    ensures |Load(codec, Run(codec, Some([]), ws[..k]).file).value| == k
    ensures |Load(codec, Run(codec, Some([]), ws[..k + 1]).file).value| == k + 1
    ensures Load(codec, Run(codec, Some([]), ws[..k + 1]).file).value[..k] == Load(codec, Run(codec, Some([]), ws[..k]).file).value
    ensures Load(codec, Run(codec, Some([]), ws[..k + 1]).file).value[k] == Observed(ws[k])
  {
    LoadEmptyFile(codec);
    RunLoads(codec, Some([]), [], ws[..k]);
    RunLoads(codec, Some([]), [], ws[..k + 1]);
    var before := Recorded(ws[..k]);
    var after := Recorded(ws[..k + 1]);
    assert [] + before == before;
    assert [] + after == after;
    assert after[..k] == before;
  }

  /**
   * With a window of zero or negative length the loop in `observe` never
   * runs, so every observation is the empty one `GpsData::new` made.
   */
  lemma EmptyWindowsRecordFresh(ws: seq<Window>)
    requires forall w <- ws :: w.events == []
    ensures forall i :: 0 <= i < |ws| ==> Recorded(ws)[i] == Fresh(ws[i].start)
  {
    forall i | 0 <= i < |ws|
      ensures Recorded(ws)[i] == Fresh(ws[i].start)
    {
      assert ws[i] in ws;
    }
  }

  /** The files after the cycles: the log file replaced when there is one, the others untouched. */
  function Overwrite(files: map<Path, string>, p: Path, file: Option<string>): map<Path, string> {
    if file.Some? then files[p := file.value] else files
  }

  /** `GpsRecorder`: where the log goes and how long each window lasts. */
  class GpsRecorder {
    const filePath: Path
    const interval: int

    constructor (filePath: Path, interval: int)
      ensures this.filePath == filePath && this.interval == interval
    {
      this.filePath := filePath;
      this.interval := interval;
    }

    /**
     * `GpsRecorder::new`, once connected: create the empty log file
     * `<stamp>_GPS_data.json` in `path`, then turn the interval into a
     * duration. The file is created before the duration can fail.
     */
    static method New(fs: FileSystem, path: Path, stamp: string, interval: u64) returns (r: Result<GpsRecorder, Fatal>)
      requires fs.Valid()
      modifies fs
      ensures fs.Valid() && fs.dirs == old(fs.dirs)
      ensures fs.files == if old(fs.CanCreate(OutputFile(path, stamp)))
                          then old(fs.files)[OutputFile(path, stamp) := []] else old(fs.files)
      ensures !old(fs.CanCreate(OutputFile(path, stamp))) ==> r == Err(Store(Io(CannotCreate)))
      ensures old(fs.CanCreate(OutputFile(path, stamp))) && IntervalDuration(interval).Err? ==>
                r == Err(DurationOutOfRange)
      ensures r.Ok? <==> old(fs.CanCreate(OutputFile(path, stamp))) && IntervalDuration(interval).Ok?
      ensures r.Ok? ==> fresh(r.value) && r.value.filePath == OutputFile(path, stamp) &&
                        r.value.interval == IntervalDuration(interval).value
    {
      var filename := FileName(stamp);
      var filePath := Join(path, filename);
      var created := fs.Create(filePath);
      if created.Err? {
        return Err(Store(Io(created.error)));
      }
      var duration := IntervalDuration(interval);
      if duration.Err? {
        return Err(duration.error);
      }
      var recorder := new GpsRecorder(filePath, duration.value);
      return Ok(recorder);
    }

    /**
     * One turn of the loop in `record`: a fresh `GpsData`, the whole log read
     * back, one window observed, the observation appended and the log rewritten.
     */
    method Turn(codec: Codec, fs: FileSystem, window: Window) returns (r: Result<(), StoreError>)
      requires fs.Valid()
      modifies fs
      ensures fs.Valid() && fs.dirs == old(fs.dirs)
      ensures r.Err? <==> Cycle(codec, old(fs.FileAt(filePath)), window).Err?
      ensures r.Err? ==> r.error == Cycle(codec, old(fs.FileAt(filePath)), window).error && fs.files == old(fs.files)
      ensures r.Ok? ==> fs.files == old(fs.files)[filePath := Cycle(codec, old(fs.FileAt(filePath)), window).value]
    {
      var gpsData := new GpsData(window.start);
      var read := GpsDataVec.ReadFile(codec, fs, filePath);
      if read.Err? {
        return Err(read.error);
      }
      var gpsDataVec := read.value;
      gpsData.Observe(window.events);
      gpsDataVec.Append(gpsData.Value());
      var written := gpsDataVec.WriteFile(codec, fs, filePath);
      // the file was just read, so it sits in a directory and can be recreated
      assert written.Ok?;
      return Ok(());
    }

    /**
     * `record`, over the windows `windows` of its endless loop: the handshake,
     * then one cycle per window. `Ok` means the loop is still running after
     * the last of them; an error is the panic that ends it. A window of zero
     * or negative length closes before `get_data` is first called.
     */
    method Record(codec: Codec, fs: FileSystem, handshakeOk: bool, windows: seq<Window>) returns (r: Result<(), Fatal>)
      requires fs.Valid()
      requires interval <= 0 ==> forall w <- windows :: w.events == []
      modifies fs
      ensures fs.Valid() && fs.dirs == old(fs.dirs)
      ensures !handshakeOk ==> r == Err(Handshake) && fs.files == old(fs.files)
      ensures handshakeOk ==>
                fs.files == Overwrite(old(fs.files), filePath, Run(codec, old(fs.FileAt(filePath)), windows).file)
      ensures handshakeOk ==> (r.Ok? <==> Run(codec, old(fs.FileAt(filePath)), windows).result.Ok?)
      ensures handshakeOk && r.Err? ==> r.error == Store(Run(codec, old(fs.FileAt(filePath)), windows).result.error)
    {
      if !handshakeOk {
        return Err(Handshake);
      }
      ghost var outcome := Run(codec, fs.FileAt(filePath), windows);
      assert filePath in fs.files ==> fs.files[filePath := fs.files[filePath]] == fs.files;
      var i := 0;
      while i < |windows|
        invariant 0 <= i <= |windows|
        invariant fs.Valid() && fs.dirs == old(fs.dirs)
        invariant Run(codec, fs.FileAt(filePath), windows[i..]) == outcome
        invariant fs.files == Overwrite(old(fs.files), filePath, fs.FileAt(filePath))
      {
        var window := windows[i];
        assert windows[i..][0] == window && windows[i..][1..] == windows[i + 1..];
        var turn := Turn(codec, fs, window);
        if turn.Err? {
          return Err(Store(turn.error));
        }
        i := i + 1;
      }
      assert windows[i..] == [];
      return Ok(());
    }
  }

  /**
   * `main`, after argument parsing: default the interval, create the recorder
   * for the output directory, and record. `stamp` is the formatted start time.
   */
  method StartRecording(codec: Codec, fs: FileSystem, outputPath: Path, stamp: string, intervalArg: Option<u64>,
                        handshakeOk: bool, windows: seq<Window>) returns (r: Result<(), Fatal>)
    requires fs.Valid()
    requires IntervalDuration(IntervalOrDefault(intervalArg)).Ok? &&
             IntervalDuration(IntervalOrDefault(intervalArg)).value <= 0 ==>
               forall w <- windows :: w.events == []
    modifies fs
    ensures fs.Valid() && fs.dirs == old(fs.dirs)
    ensures r.Ok? ==> old(fs.CanCreate(OutputFile(outputPath, stamp))) &&
                      IntervalDuration(IntervalOrDefault(intervalArg)).Ok? && handshakeOk
    ensures (&& codec.RoundTrips()
             && old(fs.CanCreate(OutputFile(outputPath, stamp)))
             && IntervalDuration(IntervalOrDefault(intervalArg)).Ok?
             && handshakeOk) ==> r.Ok?
    ensures !old(fs.CanCreate(OutputFile(outputPath, stamp))) ==> fs.files == old(fs.files)
    ensures old(fs.CanCreate(OutputFile(outputPath, stamp))) ==>
              fs.files == Overwrite(old(fs.files)[OutputFile(outputPath, stamp) := []], OutputFile(outputPath, stamp),
                                    if IntervalDuration(IntervalOrDefault(intervalArg)).Ok? && handshakeOk
                                    then Run(codec, Some([]), windows).file else None)
    ensures r.Ok? && codec.RoundTrips() ==>
              fs.files == old(fs.files)[OutputFile(outputPath, stamp) :=
                            if windows == [] then [] else codec.encode(Recorded(windows))]
    ensures r.Ok? && codec.RoundTrips() ==>
              Load(codec, fs.FileAt(OutputFile(outputPath, stamp))) == Ok(Recorded(windows))
    ensures r.Ok? && IntervalDuration(IntervalOrDefault(intervalArg)).value <= 0 ==>
              forall i :: 0 <= i < |windows| ==> Recorded(windows)[i] == Fresh(windows[i].start)
  {
    var interval := IntervalOrDefault(intervalArg);
    var created := GpsRecorder.New(fs, outputPath, stamp, interval);
    if created.Err? {
      return Err(created.error);
    }
    var recorder := created.value;
    ghost var file := recorder.filePath;
    assert fs.FileAt(file) == Some([]);
    LoadEmptyFile(codec);
    if codec.RoundTrips() {
      RunLoads(codec, Some([]), [], windows);
      RunAppends(codec, Some([]), [], windows);
      assert [] + Recorded(windows) == Recorded(windows);
    }
    if recorder.interval <= 0 {
      EmptyWindowsRecordFresh(windows);
    }
    r := recorder.Record(codec, fs, handshakeOk, windows);
  }
}
