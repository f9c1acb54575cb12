/**
 * The sink: a data lake that stores one file per write, or refuses the write. The file
 * system, directory and file creation calls and the byte encoding are not modelled; a write
 * either stores its records under its path or fails with nothing stored.
 */
module DataLake {
  import opened Wrappers
  import opened Errors
  import opened Json

  /** One written file: its file system, directory, name and the records it holds. */
  datatype DataFile = DataFile(fileSystem: string, directory: string, fileName: string, records: seq<Fields>)

  /** The lake's files in write order, and the file systems and directories it refuses to write to. */
  datatype Lake = Lake(files: seq<DataFile>, refused: set<string>)

  /** `write_data`: the new lake, or the error with nothing written. */
  function Written(lake: Lake, fileSystem: string, directory: string, fileName: string, records: seq<Fields>): (r: Result<Lake, Error>)
    ensures r.Failure? <==> fileSystem in lake.refused || directory in lake.refused
    ensures r.Failure? ==> r.error == DataLakeError
    ensures r.Success? ==>
      r.value.refused == lake.refused && |r.value.files| == |lake.files| + 1
      && r.value.files[..|lake.files|] == lake.files
      && r.value.files[|lake.files|] == DataFile(fileSystem, directory, fileName, records)
  {
    if fileSystem in lake.refused || directory in lake.refused then Failure(DataLakeError)
    else Success(Lake(lake.files + [DataFile(fileSystem, directory, fileName, records)], lake.refused))
  }

  class DataLakeWriter {
    var files: seq<DataFile>
    const refused: set<string>

    function Contents(): Lake
      reads this
    {
      Lake(files, refused)
    }

    constructor(lake: Lake)
      ensures Contents() == lake
    {
      files := lake.files;
      refused := lake.refused;
    }

    method WriteData(fileSystemName: string, directoryName: string, fileName: string, records: seq<Fields>) returns (err: Option<Error>)
      modifies this
      ensures var w := Written(old(Contents()), fileSystemName, directoryName, fileName, records);
        (w.Success? ==> Contents() == w.value && err == None)
        && (w.Failure? ==> Contents() == old(Contents()) && err == Some(w.error))
    {
      if fileSystemName in refused || directoryName in refused {
        return Some(DataLakeError);
      }
      files := files + [DataFile(fileSystemName, directoryName, fileName, records)];
      return None;
    }
  }
}
