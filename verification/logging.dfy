/** The logger the publisher reports to; only error-level entries are modelled. */
module Logging {
  import opened Wrappers

  /** An error-level entry: its message and the error attached with `WithError`, if any. */
  datatype LogEntry = Error(message: string, err: Option<string>)

  class Logger {
    var entries: seq<LogEntry>

    constructor ()
      ensures entries == []
    {
      entries := [];
    }

    method Error(message: string, err: Option<string>)
      modifies this
      ensures entries == old(entries) + [LogEntry.Error(message, err)]
    {
      entries := entries + [LogEntry.Error(message, err)];
    }
  }
}
