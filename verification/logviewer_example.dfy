/**
 * The example log panel shipped for web clients: the same bounded buffer
 * and persisted copy as the desktop log panel.
 */
module LogViewerExample {
  import LogViewer

  class ExampleViewer {
    var lines: seq<LogViewer.LogLine>
    /** What the persist effect last wrote under `LogViewer.StorageKey`. */
    var saved: seq<LogViewer.LogRecord>
    /** The `maxLines` prop the listeners were last subscribed with. */
    var maxLines: int

    /** Mounting starts empty; a failed first write leaves an earlier session's `previous` records stored. */
    constructor (maxLines: int, previous: seq<LogViewer.LogRecord>, writeOk: bool)
      ensures lines == [] && this.maxLines == maxLines
      ensures saved == if writeOk then [] else previous
    {
      lines := [];
      saved := if writeOk then [] else previous;
      this.maxLines := maxLines;
    }

    /** A stdout line, then the persist effect, whose failure is ignored. */
    method OnStdout(payload: LogViewer.Payload, now: int, writeOk: bool)
      modifies this
      ensures lines == LogViewer.Appended(old(lines), LogViewer.LogLine(LogViewer.Stdout, LogViewer.PayloadString(payload), now), maxLines)
      ensures saved == if writeOk then LogViewer.Snapshot(lines) else old(saved)
      ensures maxLines == old(maxLines)
    {
      lines := LogViewer.Appended(lines, LogViewer.LogLine(LogViewer.Stdout, LogViewer.PayloadString(payload), now), maxLines);
      if writeOk {
        saved := LogViewer.Snapshot(lines);
      }
    }

    /** A stderr line, then the persist effect, whose failure is ignored. */
    method OnStderr(payload: LogViewer.Payload, now: int, writeOk: bool)
      modifies this
      ensures lines == LogViewer.Appended(old(lines), LogViewer.LogLine(LogViewer.Stderr, LogViewer.PayloadString(payload), now), maxLines)
      ensures saved == if writeOk then LogViewer.Snapshot(lines) else old(saved)
      ensures maxLines == old(maxLines)
    {
      lines := LogViewer.Appended(lines, LogViewer.LogLine(LogViewer.Stderr, LogViewer.PayloadString(payload), now), maxLines);
      if writeOk {
        saved := LogViewer.Snapshot(lines);
      }
    }

    /** A new `maxLines` prop re-subscribes the listeners; the buffer is cut only by the next line. */
    method SetMaxLines(m: int)
      modifies this
      ensures maxLines == m && lines == old(lines) && saved == old(saved)
    {
      maxLines := m;
    }
  }
}
