// offsets.go: the persisted table of per-device, per-build hook offsets and
// updateConfig, which adds one entry to it. The file's JSON encoding is not
// modelled: the file is either missing, undecodable, or holds a record.

module Offsets {
  import opened Util

  datatype BuildData = BuildData(plistCreate: string, callHandler: string)

  datatype Offset = Offset(os: string, builds: seq<map<string, BuildData>>)

  datatype OffsetsData = OffsetsData(offsets: seq<Offset>)

  /** The fields of a "newOffset" report. */
  datatype NewOffset = NewOffset(machine: string, version: string, callEvent: string, plistCreate: string)

  /** What the config file holds. */
  datatype ConfigFile = Missing | Undecodable | Holds(data: OffsetsData)

  datatype UpdateError = DecodeError

  /** The entry updateConfig writes for a report: one OS with one build map
      holding the report's version. */
  function Entry(off: NewOffset): (e: Offset)
    ensures e.os == off.machine && |e.builds| == 1
    ensures e.builds[0].Keys == {off.version}
    ensures e.builds[0][off.version].callHandler == off.callEvent
    ensures e.builds[0][off.version].plistCreate == off.plistCreate
  {
    Offset(off.machine, [map[off.version := BuildData(off.plistCreate, off.callEvent)]])
  }

  /** The file after updateConfig, and the error it returns. */
  function Update(file: ConfigFile, off: NewOffset): (r: (ConfigFile, Option<UpdateError>))
    ensures r.1.Some? <==> file.Undecodable?
    ensures r.1.Some? ==> r.0 == file
    ensures r.1.None? ==>
      (r.0.Holds? && |r.0.data.offsets| >= 1 && r.0.data.offsets[|r.0.data.offsets| - 1] == Entry(off))
  {
    match file
    case Missing => (Holds(OffsetsData([Entry(off)])), None)
    case Undecodable => (Undecodable, Some(DecodeError))
    case Holds(data) => (Holds(OffsetsData(data.offsets + [Entry(off)])), None)
  }

  /** The config file at its path; updateConfig reads and rewrites it. */
  class Config {
    var file: ConfigFile

    constructor (file: ConfigFile)
      ensures this.file == file
    {
      this.file := file;
    }

    method UpdateConfig(off: NewOffset) returns (err: Option<UpdateError>)
      modifies this
      ensures (file, err) == Update(old(file), off)
    {
      if file.Missing? {
        var configData := OffsetsData([Entry(off)]);
        file := Holds(configData);
        return None;
      } else {
        if file.Undecodable? {
          return Some(DecodeError);
        }
        var configData := file.data;
        configData := configData.(offsets := configData.offsets + [Entry(off)]);
        file := Holds(configData);
        return None;
      }
    }
  }

  /** With no file, the update creates a record of exactly the new entry. */
  lemma CreatesOneEntry(off: NewOffset)
    ensures var (file, err) := Update(Missing, off);
      err.None? && file.Holds? && |file.data.offsets| == 1 && file.data.offsets[0] == Entry(off)
  {
  }

  /** With a record, the update appends the entry: one more offset, the old
      ones unchanged and in order, the new one last. */
  lemma AppendsEntry(data: OffsetsData, off: NewOffset)
    ensures var (file, err) := Update(Holds(data), off);
      err.None? && file.Holds?
      && |file.data.offsets| == |data.offsets| + 1
      && file.data.offsets[..|data.offsets|] == data.offsets
      && file.data.offsets[|data.offsets|] == Entry(off)
  {
  }

  /** An undecodable file is left as it was and the update fails. */
  lemma DecodeFailureKeepsFile(off: NewOffset)
    ensures Update(Undecodable, off) == (Undecodable, Some(DecodeError))
  {
  }

  /** Reporting the same (machine, version) twice stores it twice. */
  lemma NoDeduplication(file: ConfigFile, off: NewOffset)
    requires file != Undecodable
    ensures var once := Update(file, off).0;
      var twice := Update(once, off).0;
      twice.Holds? && |twice.data.offsets| >= 2
      && twice.data.offsets[|twice.data.offsets| - 2] == twice.data.offsets[|twice.data.offsets| - 1] == Entry(off)
  {
  }

  /** Two updates from a missing file give two OS entries, in report order. */
  lemma TwoReports(a: NewOffset, b: NewOffset)
    ensures Update(Update(Missing, a).0, b).0 == Holds(OffsetsData([Entry(a), Entry(b)]))
  {
  }
}
