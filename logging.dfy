/** What the services hand to the logger, in order: informational lines, warnings, and errors
    with the error they report. */
module Logging {
  datatype LogEntry = Info(message: string) | Warn(message: string) | Error(message: string, cause: string)
}
