/** The local filesystem as the scripts see it: binary files written under a directory. Every write
    is recorded, in order, in the log of a `Disk`; paths the disk refuses to write raise an error. */
module Files {
  import opened Wrappers

  newtype byte = x: int | 0 <= x < 256

  type Bytes = seq<byte>

  /** A file `name` inside directory `dir` (what `OUT_DIR / name` and `path.join(dir, name)` build). */
  datatype Path = Path(dir: string, name: string)

  datatype FileWrite = FileWrite(path: Path, data: Bytes)

  /** The error a write to `path` raises, if the disk refuses it. */
  function WriteFault(faults: map<Path, string>, path: Path): Option<string>
  {
    if path in faults then Some(faults[path]) else None
  }

  class Disk {
    /** Paths whose write raises, with the text of the error. */
    const faults: map<Path, string>
    /** Every successful write, oldest first. */
    var log: seq<FileWrite>

    constructor (faults: map<Path, string>)
      ensures this.faults == faults && log == []
    {
      this.faults := faults;
      log := [];
    }

    /** Writes `data` to `path`, replacing the file; returns the error when the write raises. */
    method WriteBytes(path: Path, data: Bytes) returns (err: Option<string>)
      modifies this
      ensures err == WriteFault(faults, path)
      ensures log == if err.None? then old(log) + [FileWrite(path, data)] else old(log)
    {
      err := WriteFault(faults, path);
      if err.None? {
        log := log + [FileWrite(path, data)];
      }
    }
  }
}
