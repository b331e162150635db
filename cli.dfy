/** Command-line options of the entry point (src/cbws/run.py:16-59): the two
    flags with their defaults and the mapping of the `--log` word to a
    logging level. */
module Cli {
  import opened Base

  /** The numeric levels of Python's `logging` module. */
  const INFO: int := 20
  const DEBUG: int := 10

  /** What `--log` stands for when it is not given. */
  const DefaultLog: string := "info"

  /** The level `_Options` assigns for a `--log` word; None when it assigns none. */
  function LevelFor(name: string): (r: Option<int>)
    ensures r == Some(INFO) <==> name == "info"
    ensures r == Some(DEBUG) <==> name == "debug"
    ensures r == None <==> name != "info" && name != "debug"
  {
    if name == "info" then Some(INFO) else if name == "debug" then Some(DEBUG) else None
  }

  /** The word `--log` yields: the flag's value, or the default. */
  function LogWord(logFlag: Option<string>): (w: string)
    ensures logFlag == None ==> w == "info"
    ensures logFlag != None ==> w == logFlag.value
  {
    match logFlag
    case None => DefaultLog
    case Some(w) => w
  }

  /** `_Options`: the object `_parseArgs` returns. A `logLevel` of None
      stands for the attribute that `__init__` never assigned. */
  class Options {
    var confFile: Option<string>
    var logLevel: Option<int>

    constructor (confFile: Option<string>, logWord: string)
      ensures this.confFile == confFile
      ensures this.logLevel == LevelFor(logWord)
    {
      this.confFile := confFile;
      if logWord == "info" {
        this.logLevel := Some(INFO);
      } else if logWord == "debug" {
        this.logLevel := Some(DEBUG);
      } else {
        this.logLevel := None;
      }
    }
  }

  /** `_parseArgs`, given which flags the command line carried. */
  method ParseArgs(fileFlag: Option<string>, logFlag: Option<string>) returns (o: Options)
    ensures fresh(o)
    ensures o.confFile == fileFlag  // `--file` defaults to None
    ensures logFlag == None ==> o.logLevel == Some(INFO)
    ensures o.logLevel == LevelFor(LogWord(logFlag))
  {
    o := new Options(fileFlag, LogWord(logFlag));
  }
}
