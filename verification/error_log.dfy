/** The centralised error log of `logger.py`: every `log_error(kind, message)` call appends one
    line to the session's log file. The log is kept here as the sequence of calls made. */
module ErrorLog {

  /** One `log_error(kind, message)` call. */
  datatype Entry = Entry(kind: string, message: string)

  type Log = seq<Entry>

  /** The log after `log_error(kind, message)`. */
  function Append(log: Log, kind: string, message: string): Log {
    log + [Entry(kind, message)]
  }
}
