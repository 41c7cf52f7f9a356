/**
 * The observation log store, `GpsDataVec`: the ordered list of observations
 * that the log file holds, read whole and rewritten whole.
 */
module Log {
  import opened Wrappers
  import opened Observations
  import opened Files
  import opened Serde

  /** Why the log could not be read or written; fatal in the logger (`unwrap`). */
  datatype StoreError = Io(io: IoError) | Malformed(decode: DecodeError)

  /**
   * `read_file` on a file's contents (`None` for a file that cannot be
   * opened): an empty file is the empty log, any other text is decoded.
   */
  function Load(codec: Codec, file: Option<string>): Result<seq<Observation>, StoreError> {
    match file
    case None => Err(Io(NotFound))
    case Some(text) =>
      if text == [] then Ok([])
      else
        match codec.decode(text)
        case Ok(log) => Ok(log)
        case Err(e) => Err(Malformed(e))
  }

  /** Reading fails exactly for a missing file and for a non-empty text that does not decode. */
  lemma LoadFails(codec: Codec, file: Option<string>)
    ensures Load(codec, file).Err? <==> file.None? || (file.value != [] && codec.decode(file.value).Err?)
    ensures file.Some? && file.value != [] && codec.decode(file.value).Err? ==>
              Load(codec, file) == Err(Malformed(codec.decode(file.value).error))
  {
  }

  /** A freshly created (empty) file holds the empty log. */
  lemma LoadEmptyFile(codec: Codec)
    ensures Load(codec, Some([])) == Ok([])
  {
  }

  /** What `write_file` wrote, `read_file` reads back. */
  lemma LoadWritten(codec: Codec, log: seq<Observation>)
    requires codec.RoundTrips()
    ensures Load(codec, Some(codec.encode(log))) == Ok(log)
  {
    assert codec.decode(codec.encode(log)) == Ok(log) && codec.encode(log) != [];
  }

  /** Writing the empty log and reading it back gives the empty log, as the empty file does. */
  lemma EmptyLogRoundTrip(codec: Codec)
    requires codec.RoundTrips()
    ensures Load(codec, Some(codec.encode([]))) == Load(codec, Some([])) == Ok([])
  {
    LoadWritten(codec, []);
  }

  /** `GpsDataVec`: a vector of observations. */
  class GpsDataVec {
    var entries: seq<Observation>

    constructor (entries: seq<Observation>)
      ensures this.entries == entries
    {
      this.entries := entries;
    }

    /** `append`: push one observation onto the end. */
    method Append(gpsData: Observation)
      modifies this
      ensures entries == old(entries) + [gpsData]
    {
      entries := entries + [gpsData];
    }

    /** `to_json`: the text of the entries. */
    function ToJson(codec: Codec): (text: string)
      reads this
      ensures codec.RoundTrips() ==> text != [] && codec.decode(text) == Ok(entries)
    {
      codec.encode(entries)
    }

    /** `read_file`: open, read the whole file, and decode it unless it is empty. */
    static method ReadFile(codec: Codec, fs: FileSystem, path: Path) returns (r: Result<GpsDataVec, StoreError>)
      ensures Load(codec, fs.FileAt(path)).Err? ==> r == Err(Load(codec, fs.FileAt(path)).error)
      ensures Load(codec, fs.FileAt(path)).Ok? ==>
                r.Ok? && fresh(r.value) && r.value.entries == Load(codec, fs.FileAt(path)).value
    {
      var read := fs.Read(path);
      if read.Err? {
        return Err(Io(read.error));
      }
      var dataString := read.value;
      if dataString == [] {
        var empty := new GpsDataVec([]);
        return Ok(empty);
      }
      match codec.decode(dataString) {
        case Err(e) =>
          return Err(Malformed(e));
        case Ok(log) =>
          var gpsDataVec := new GpsDataVec(log);
          return Ok(gpsDataVec);
      }
    }

    /** `write_file`: recreate the file and write the whole log into it. */
    method WriteFile(codec: Codec, fs: FileSystem, path: Path) returns (r: Result<(), StoreError>)
      requires fs.Valid()
      modifies fs
      ensures fs.Valid() && fs.dirs == old(fs.dirs)
      ensures r.Ok? <==> old(fs.CanCreate(path))
      ensures r.Err? ==> r.error == Io(CannotCreate)
      ensures fs.files == if r.Ok? then old(fs.files)[path := codec.encode(entries)] else old(fs.files)
    {
      var created := fs.Create(path);
      if created.Err? {
        return Err(Io(created.error));
      }
      fs.Write(path, ToJson(codec));
      return Ok(());
    }
  }
}
