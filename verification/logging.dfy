/** A PSR-3 logger reduced to the two levels the factory uses. */
module Logging {

  datatype LogLine = Info(text: string) | Notice(text: string)

  /** A logger that records every line it is given, in order. */
  class Logger {
    var lines: seq<LogLine>

    constructor ()
      ensures lines == []
    {
      lines := [];
    }

    method Info(text: string)
      modifies this
      ensures lines == old(lines) + [LogLine.Info(text)]
    {
      lines := lines + [LogLine.Info(text)];
    }

    method Notice(text: string)
      modifies this
      ensures lines == old(lines) + [LogLine.Notice(text)]
    {
      lines := lines + [LogLine.Notice(text)];
    }
  }
}
