# GPS logger: observation and persistence loop

This project models the core of the hydrophonitor GPS logger (`src/main.rs`). The logger talks to the local
positioning daemon (gpsd). It runs one handshake and then loops forever. Each turn of the loop does four
things:

- Create a fresh `GpsData`: a start timestamp plus five empty slots, one per report class (DEVICE, TPV, SKY, PPS, GST).
- Read the whole log file (`GpsDataVec::read_file`). An empty file is the empty log; any other content is decoded as JSON.
- Spend one interval taking in reports. Each report replaces the slot of its class, and receive errors are skipped.
- Append the observation and rewrite the whole file as JSON (`write_file`).

Before the loop, `main` and `GpsRecorder::new` do the setup:

- The interval defaults to 10 seconds.
- The log file is `<start time>_GPS_data.json` in the output directory, created empty.
- The interval becomes a `chrono::Duration` through `interval as i64`.

The modules follow the program's structure:

- `Wrappers`: `Option` and `Result`.
- `Gpsd`: the report type `ResponseData` and the result of one `get_data` call.
- `Observations`: the value `Observation` and the class `GpsData`, with `receive` and `observe`. Functions `Fresh`, `Received` and `Accumulated` specify them.
- `Serde`: the JSON codec as a pair of functions, plus the one guarantee the logger relies on, `RoundTrips`: decoding an encoding gives the log back, and no log encodes to the empty text.
- `Json`: a concrete JSON-shaped codec (an array of `{"timestamp":…,"device":…,…}` objects) with that guarantee proved. It shows the guarantee can be met.
- `Files`: the part of the file system the logger uses. A file map and a directory set, with create-or-truncate, read-whole-file and write.
- `Log`: the class `GpsDataVec`, with `append`, `read_file` and `write_file`. Function `Load` specifies `read_file` on a file's contents.
- `Recorder`: the class `GpsRecorder`, with `new` and `record`, and `main` as `StartRecording`. Function `Run` specifies the cycles of `record`, and the lemmas prove what they do to the log.

These fatal panics of the source are `Err`s the model returns:

- a failed handshake;
- an out-of-range `Duration`;
- a log file that cannot be opened or decoded, or whose directory does not exist when it is created.

The endless loop becomes a finite schedule of windows. `Ok` means the logger is still running after the last of them.

Three behaviours of the code worth noting:

- The daemon address is the literal `localhost:2947`. The hostname and port arguments are ignored.
- The accumulation window is the interval itself. There is no separate sampling window and no pacing sleep.
- A very large `--interval` wraps through `as i64` (see `Recorder.IntervalCases`). A window of zero or negative length closes at once, so those runs record only empty observations (see `Recorder.EmptyWindowsRecordFresh`).

## Model

| member | source | states |
|---|---|---|
| Observations.SlotsDetermine | src/main.rs:33-41 | an observation is exactly its timestamp and its five slots |
| Observations.Fresh | src/main.rs:44-53 | a new observation has the given timestamp and every slot empty |
| Observations.GpsData.constructor | src/main.rs:44-53 | `GpsData::new` holds the fresh observation for the clock reading |
| Observations.Received | src/main.rs:55-73 | a report lands in the slot of its own kind; the other slots and the timestamp are unchanged |
| Observations.GpsData.Receive | src/main.rs:55-73 | `receive` updates the fields to the received observation |
| Observations.ReceivedLastWins | src/main.rs:55-73 | of two reports of one kind only the later is kept (replace, not merge) |
| Observations.ReceivedCommutes | src/main.rs:55-73 | reports of different kinds fill independent slots, so their order does not matter |
| Observations.GpsData.Observe | src/main.rs:75-86 | `observe` leaves the fields equal to the observation accumulated over the window's results, in order |
| Observations.AccumulatedAppend | src/main.rs:77-85 | results are taken in order, so a window's stream may be split anywhere |
| Observations.ErrorSkipped | src/main.rs:78-83 | a receive error changes nothing and the reports after it are still taken in |
| Observations.AccumulatedKeepsSlot | src/main.rs:77-85 | a slot that no report of its kind reaches keeps its value |
| Observations.AccumulatedLastWins | src/main.rs:77-85 | a slot ends holding the last report of its kind |
| Observations.LastOfKindExists | src/main.rs:77-85 | if a report of a kind arrived, there is a last one |
| Observations.Step | src/main.rs:78-84 | one turn of `observe`: a received report fills the slot of its kind and leaves the others, an error leaves every slot, and the timestamp never changes |
| Observations.Accumulated | src/main.rs:75-86 | the whole window keeps the timestamp taken at creation, not at the window's end; what the slots end holding is stated by `ObservedSlot`, `AccumulatedLastWins`, `AccumulatedKeepsSlot` and `ErrorSkipped` |
| Observations.ObservedSlot | src/main.rs:75-86 | from `GpsData::new`, a slot is empty exactly when no report of its kind arrived, and otherwise holds the last such report |
| Files.Join | src/main.rs:133 | joining adds the file name as the last path component under the directory |
| Files.FileSystem.Create | src/main.rs:113 | in the model, `File::create` succeeds exactly when the directory exists and the path is not itself a directory, and then leaves an empty file, truncating the old contents |
| Files.FileSystem.Read | src/main.rs:102-104 | opening and reading gives the whole contents, or `NotFound` when there is no file |
| Files.FileSystem.Write | src/main.rs:114 | writing replaces the contents of that one file and nothing else |
| Log.Load | src/main.rs:101-110 | reading a file's contents: the empty text is the empty log, other text is decoded, a missing file fails |
| Log.LoadFails | src/main.rs:101-110 | reading fails exactly for a missing file or a non-empty text that does not decode; the latter is a decode error |
| Log.LoadEmptyFile | src/main.rs:105-107 | a freshly created empty file holds the empty log |
| Log.LoadWritten | src/main.rs:97-110 | what `write_file` writes, `read_file` reads back |
| Log.EmptyLogRoundTrip | src/main.rs:105-108 | writing the empty log and reading it back gives the empty log, as the empty file does |
| Log.GpsDataVec.constructor | src/main.rs:89-90 | the vector holds exactly the given observations |
| Log.GpsDataVec.ToJson | src/main.rs:97-99 | given the codec guarantee, the text of the entries is non-empty and decodes back to exactly those entries |
| Log.GpsDataVec.Append | src/main.rs:93-95 | `append` adds exactly one observation, at the end |
| Log.GpsDataVec.ReadFile | src/main.rs:101-110 | `read_file` returns a new vector holding the loaded log, or the read or decode error |
| Log.GpsDataVec.WriteFile | src/main.rs:112-115 | `write_file` succeeds exactly when the file can be created, replaces it with the encoding of the entries and touches no other file |
| Json.ObservationRoundTrip | src/main.rs:33-41 | an encoded observation decodes back to itself, leaving the text after it |
| Json.ArrayRoundTrip | src/main.rs:89-90 | a JSON array of elements decodes back to the same elements, given that each element does |
| Serde.Codec.RoundTrips | src/main.rs:97-108 | the one guarantee assumed of serde_json: decoding an encoding gives the log back and no log encodes to the empty text; `Json.CodecRoundTrips` shows it can be met and `Log.LoadWritten` uses it |
| Json.Encode | src/main.rs:98 | stand-in for `serde_json::to_string`: the text is an array, opening with `[`; `Json.EncodeRoundTrip` and `Json.EncodeInjective` state more |
| Json.Decode | src/main.rs:108 | stand-in for `serde_json::from_str`: an empty text or one that does not open an array is a decode error; `Json.EncodeRoundTrip` states that encodings decode |
| Json.EncodeRoundTrip | src/main.rs:97-108 | decoding the JSON text of a log gives the log back, and the text is never empty |
| Json.EncodeInjective | src/main.rs:97-99 | distinct logs have distinct texts |
| Json.EmptyTextDoesNotDecode | src/main.rs:105-108 | the empty text is not the JSON of any log, which is why `read_file` treats it on its own |
| Json.CodecRoundTrips | src/main.rs:97-108 | the JSON codec has the round-trip guarantee the rest of the model assumes of serde_json |
| Recorder.IntervalOrDefault | src/main.rs:159 | the interval is the argument when given and 10 otherwise |
| Recorder.DefaultIntervalIsTenSeconds | src/main.rs:159 | without `--interval` the window lasts ten seconds |
| Recorder.AsI64 | src/main.rs:138 | `as i64` gives the i64 congruent to the u64 modulo 2^64 |
| Recorder.DurationSeconds | src/main.rs:138 | `Duration::seconds` succeeds exactly within plus or minus `i64::MAX / 1000` seconds and keeps the value |
| Recorder.IntervalDuration | src/main.rs:138 | `Duration::seconds(interval as i64)` succeeds exactly for intervals up to `i64::MAX / 1000` seconds or within that distance below 2^64, gives a duration congruent to the interval modulo 2^64, and otherwise is the out-of-range panic |
| Recorder.IntervalCases | src/main.rs:138 | intervals up to `i64::MAX / 1000` are kept; larger ones panic; those within that distance of 2^64 wrap to a negative window |
| Recorder.FileName | src/main.rs:132 | the file name is the start time followed by `_GPS_data.json` |
| Recorder.OutputFile | src/main.rs:132-133 | the log file lies directly in the output directory and is named after the start time |
| Recorder.OutputFileInjective | src/main.rs:132-133 | runs with different start stamps write different files |
| Recorder.GpsRecorder.constructor | src/main.rs:135-139 | the recorder holds the file path and the interval |
| Recorder.GpsRecorder.New | src/main.rs:125-140 | `new` creates the empty log file before converting the interval; it succeeds exactly when both work, and each failure is the matching fatal error |
| Recorder.Recorded | src/main.rs:146-152 | one observation per window, in window order, each the one that window accumulates |
| Recorder.Cycle | src/main.rs:147-151 | a turn fails exactly when the log file cannot be read or decoded, with that error; `Recorder.CycleAppends` states what a successful turn writes |
| Recorder.GpsRecorder.Turn | src/main.rs:147-151 | one turn of `record` fails exactly when `Cycle` does, with its error and no file changed, and otherwise replaces only the log file, with `Cycle`'s text |
| Recorder.Run | src/main.rs:146-152 | a failed run had at least one window and leaves the log file present exactly when it was; `RunAppends`, `RunLoads` and `UnreadableFileIsFatal` state its outcomes |
| Recorder.CycleAppends | src/main.rs:147-151 | a cycle on a file holding a log rewrites it to hold that log plus one observation |
| Recorder.EmptyWindowsRecordFresh | src/main.rs:75-86 | when every window closes before any report is read, as with a zero or negative interval, each recorded observation is the empty one `GpsData::new` made |
| Recorder.UnreadableFileIsFatal | src/main.rs:148 | a file that cannot be read or decoded stops the loop and is left as it was |
| Recorder.RunContinues | src/main.rs:146-152 | a successful cycle hands its rewritten file to the next one |
| Recorder.RunAppends | src/main.rs:146-152 | cycles on a readable file all succeed and leave it encoding the old log followed by one observation per window |
| Recorder.RunLoads | src/main.rs:146-152 | after the cycles the file reads back as the old log plus the recorded observations |
| Recorder.HistoryPreserved | src/main.rs:146-152 | from the new empty file, after k cycles the log has exactly k entries, and cycle k+1 keeps them unchanged and in order and adds its own at the end |
| Recorder.GpsRecorder.Record | src/main.rs:142-153 | `record` fails on the handshake without touching the file; otherwise the files and the result are those of the cycle model, and only the log file changes |
| Recorder.StartRecording | src/main.rs:156-167 | `main` succeeds only when the file can be created, the interval converts and the handshake works, and the converse holds given the codec guarantee; the log file then holds the encoding of one observation per window. If the file cannot be created no file changes; otherwise the log file is created empty and stays so after a failed handshake or an out-of-range interval, and then is whatever the cycles leave; no other file changes |

## Left out

- Connecting to the daemon (`TcpStream::connect`, `exit(1)` on failure, src/main.rs:126-131) is left out. The model starts from a connected recorder.
- The handshake of the gpsd protocol crate is a boolean argument saying whether it succeeded.
- `get_data`'s reading and decoding of daemon messages is left out. A window is the finite sequence of results it yields. The report fields are an opaque string.
- Observations.GpsData.Observe: the window ends by the clock, and that is not modelled. Which results fall inside the window is given as input.
- The clock (`Utc::now`) and the timestamp format `%Y-%m-%dT%H-%M-%S` are left out. Timestamps are given as strings. `Recorder.GpsRecorder.Record` requires every window to be empty when the duration is zero or negative. That holds only while the clock never steps back: if the wall clock moves backwards inside a window, the test at src/main.rs:77 passes even then and `get_data` is called.
- Command-line parsing with clap is left out. The hostname and port arguments are parsed and then ignored by the source. The interval argument is modelled as an optional `u64`.
- serde_json itself is left out. The logger is modelled against any codec with the round-trip guarantee. `Json` is a small JSON-shaped codec, not serde_json: it fixes one layout without whitespace and does not accept the other texts serde_json would.
- Files.FileSystem.Create: permission-denied, read-only and other failures of `File::create` (src/main.rs:113, :134) are not modelled, and neither are those of `File::open` and `read_to_string` on a file that exists (src/main.rs:102, :104): permission denied, or a path that is a directory. `Files.FileSystem.Read` fails only on a missing file. In the model a log file that could be read can always be rewritten, so a cycle can fail only in `read_file`. `Recorder.RunAppends` ("all succeed") and the converse in `Recorder.StartRecording` rely on this.
- Recorder.OutputFileInjective: distinct start stamps give distinct files, but the stamp counts whole seconds (`%Y-%m-%dT%H-%M-%S`, src/main.rs:132). Two runs started in the same second, such as a quick restart after a fatal error, get the same path. The second run's `File::create` (src/main.rs:134) then truncates the first run's log. The model shows this only through `Recorder.GpsRecorder.New`, which leaves the file empty.
- The `unwrap` of `to_json` (src/main.rs:98) is not an `Err` in the model, because the model's codec always encodes.
- Recorder.HistoryPreserved: states that the earlier entries are equal as decoded values, not that their bytes in the file are identical. The whole file is re-encoded each cycle.
- The endless `loop` of `record` is modelled over a finite schedule of windows.
- `eprintln!` messages are not modelled.
- These failures are not modelled: `read_to_string` on text that is not UTF-8, a failing `write!`, and a crash in the middle of a rewrite. The model's file system never loses or truncates a write.
- The bound of `chrono::Duration::seconds` is taken as plus or minus `i64::MAX / 1000` seconds, chrono's documented range. chrono is not part of this model.
