/**
 * The node log panel: a bounded buffer of the node's stdout and stderr lines,
 * newest last, and the copy of it kept in browser storage for the
 * diagnostics export.
 */
module LogViewer {
  import opened Text

  const DefaultMaxLines := 200
  const StorageKey := "swarmchat:dendrite_logs"

  /** The payload of a log event as it arrives: missing, null, or a string. */
  datatype Payload = Undefined | Null | Str(text: string)

  /** `String(payload)`. */
  function PayloadString(p: Payload): (r: string)
    ensures p.Str? ==> r == p.text
    ensures !p.Str? ==> r != "" && r != PayloadOrEmpty(p)
  {
    match p
    case Undefined => "undefined"
    case Null => "null"
    case Str(text) => text
  }

  /** `String(payload || '')`: a missing, null or empty payload is the empty string. */
  function PayloadOrEmpty(p: Payload): (r: string)
    ensures p.Str? ==> r == p.text
    ensures !p.Str? ==> r == ""
  {
    if p.Str? then p.text else ""
  }

  datatype Origin = Stdout | Stderr

  function OriginName(o: Origin): string {
    match o
    case Stdout => "stdout"
    case Stderr => "stderr"
  }

  datatype LogLine = LogLine(origin: Origin, text: string, ts: int)

  /** A stored log record as the export reads it back. */
  datatype LogRecord = LogRecord(origin: string, text: string, ts: int)

  /** The last `n` elements of `s`. */
  function Last<T>(s: seq<T>, n: nat): seq<T>
    requires n <= |s|
  {
    s[|s| - n..]
  }

  /** How many of `n` lines a buffer of capacity `maxLines` keeps: all of them, or the capacity, or none. */
  function Kept(n: nat, maxLines: int): (r: nat)
    ensures r <= n
  {
    if n <= maxLines then n else if maxLines > 0 then maxLines else 0
  }

  /**
   * The buffer after one line arrives: the line goes on the end, and when the
   * buffer is over `maxLines` the oldest lines are dropped (all of them when
   * `maxLines` is not positive, as `splice` clamps its count).
   */
  function Appended(prev: seq<LogLine>, line: LogLine, maxLines: int): (r: seq<LogLine>)
    ensures r == Last(prev + [line], Kept(|prev| + 1, maxLines))
    ensures maxLines > 0 ==> r[|r| - 1] == line
    ensures maxLines <= 0 ==> r == []
  {
    var next := prev + [line];
    if |next| > maxLines then
      var drop := if |next| - maxLines < |next| then |next| - maxLines else |next|;
      next[drop..]
    else next
  }

  /** Below capacity nothing is dropped. */
  lemma AppendBelowCapacityKeepsAll(prev: seq<LogLine>, line: LogLine, maxLines: int)
    requires |prev| < maxLines
    ensures Appended(prev, line, maxLines) == prev + [line]
  {
  }

  /** The buffer after a run of lines arrives one by one. */
  function AppendedAll(prev: seq<LogLine>, arrivals: seq<LogLine>, maxLines: int): seq<LogLine>
    decreases |arrivals|
  {
    if arrivals == [] then prev else AppendedAll(Appended(prev, arrivals[0], maxLines), arrivals[1..], maxLines)
  }

  /** Cutting a suffix, appending, and cutting again is one cut of the whole. */
  lemma LastOfLast<T>(p: seq<T>, q: seq<T>, a: nat, b: nat)
    requires a <= |p| && b <= a + |q|
    ensures Last(Last(p, a) + q, b) == Last(p + q, b)
  {
    var x := Last(p, a) + q;
    var y := p + q;
    forall i | |x| - b <= i < |x| ensures x[i] == y[i + |p| - a] {
      if i < a {
        assert x[i] == p[|p| - a + i];
      } else {
        assert x[i] == q[i - a];
      }
    }
    assert Last(x, b) == Last(y, b);
  }

  /**
   * The buffer always holds the most recent lines: started from the newest
   * lines of `base`, after `arrivals` it holds the newest lines of
   * everything, as many as the capacity keeps, in arrival order.
   */
  lemma {:induction false} BufferIsNewestSuffix(base: seq<LogLine>, arrivals: seq<LogLine>, maxLines: int)
    ensures AppendedAll(Last(base, Kept(|base|, maxLines)), arrivals, maxLines)
      == Last(base + arrivals, Kept(|base + arrivals|, maxLines))
    decreases |arrivals|
  {
    if arrivals == [] {
      assert base + arrivals == base;
    } else {
      var prev := Last(base, Kept(|base|, maxLines));
      var next := Appended(prev, arrivals[0], maxLines);
      var base' := base + [arrivals[0]];
      var rest := arrivals[1..];
      assert AppendedAll(prev, arrivals, maxLines) == AppendedAll(next, rest, maxLines);
      AppendStep(base, arrivals[0], maxLines);
      BufferIsNewestSuffix(base', rest, maxLines);
      MoveFirst(base, arrivals);
    }
  }

  /** Moving the first arrival onto the base leaves the whole sequence as it was. */
  lemma MoveFirst<T>(base: seq<T>, arrivals: seq<T>)
    requires arrivals != []
    ensures (base + [arrivals[0]]) + arrivals[1..] == base + arrivals
  {
    assert arrivals == [arrivals[0]] + arrivals[1..];
  }

  /** One arrival on a buffer holding the newest lines of `base` leaves the newest lines of `base` and the arrival. */
  lemma AppendStep(base: seq<LogLine>, line: LogLine, maxLines: int)
    ensures Appended(Last(base, Kept(|base|, maxLines)), line, maxLines)
      == Last(base + [line], Kept(|base| + 1, maxLines))
  {
    var prev := Last(base, Kept(|base|, maxLines));
    var b := Kept(|base| + 1, maxLines);
    KeptStep(|base|, maxLines);
    assert Appended(prev, line, maxLines) == Last(prev + [line], b);
    LastOfLast(base, [line], Kept(|base|, maxLines), b);
  }

  /** Keeping from `n` lines and then adding one keeps as many as keeping from `n + 1`. */
  lemma KeptStep(n: nat, maxLines: int)
    ensures Kept(Kept(n, maxLines) + 1, maxLines) == Kept(n + 1, maxLines)
  {
  }

  /** From an empty buffer, the buffer is the newest `min(n, maxLines)` of the `n` lines that arrived. */
  lemma BufferHoldsNewestLines(arrivals: seq<LogLine>, maxLines: int)
    ensures AppendedAll([], arrivals, maxLines) == Last(arrivals, Kept(|arrivals|, maxLines))
    ensures |AppendedAll([], arrivals, maxLines)| <= if maxLines > 0 then maxLines else 0
  {
    BufferIsNewestSuffix([], arrivals, maxLines);
    assert [] + arrivals == arrivals;
  }

  /** The records the persist effect writes: one per buffered line, same order, origin by name. */
  function Snapshot(lines: seq<LogLine>): (r: seq<LogRecord>)
    ensures |r| == |lines|
    ensures forall k :: 0 <= k < |lines| ==>
      r[k] == LogRecord(OriginName(lines[k].origin), lines[k].text, lines[k].ts)
  {
    seq(|lines|, k requires 0 <= k < |lines| =>
      LogRecord(OriginName(lines[k].origin), lines[k].text, lines[k].ts))
  }

  /** The stored origin names, upper-cased by the export, are the two stream labels. */
  lemma OriginLabels()
    ensures Upper(OriginName(Stdout)) == "STDOUT" && Upper(OriginName(Stderr)) == "STDERR"
  {
    UpperOfLowerLetters("stdout", "STDOUT");
    UpperOfLowerLetters("stderr", "STDERR");
  }

  /** Upper-casing a word of lower-case letters gives its capitalised spelling. */
  lemma UpperOfLowerLetters(w: string, u: string)
    requires |w| == |u|
    requires forall k :: 0 <= k < |w| ==> 'a' <= w[k] <= 'z' && u[k] as int == w[k] as int - 32
    ensures Upper(w) == u
  {
    assert forall k :: 0 <= k < |w| ==> Upper(w)[k] == u[k];
  }

  class Viewer {
    var lines: seq<LogLine>
    /** What the persist effect last wrote under `StorageKey`. */
    var saved: seq<LogRecord>
    /** The `maxLines` prop the listeners were last subscribed with. */
    var maxLines: int

    /**
     * Mounting starts empty, and the persist effect writes the empty buffer;
     * when that write fails the store keeps `previous`, the records an
     * earlier session left there.
     */
    constructor (maxLines: int, previous: seq<LogRecord>, writeOk: bool)
      ensures lines == [] && this.maxLines == maxLines
      ensures saved == if writeOk then [] else previous
    {
      lines := [];
      saved := if writeOk then [] else previous;
      this.maxLines := maxLines;
    }

    /**
     * A line from either stream arriving at time `now`, followed by the
     * persist effect; a failed storage write (`writeOk` false) is swallowed
     * and leaves the stored copy as it was.
     */
    method OnLine(origin: Origin, payload: Payload, now: int, writeOk: bool)
      modifies this
      ensures lines == Appended(old(lines), LogLine(origin, PayloadString(payload), now), maxLines)
      ensures saved == if writeOk then Snapshot(lines) else old(saved)
      ensures maxLines == old(maxLines)
    {
      lines := Appended(lines, LogLine(origin, PayloadString(payload), now), maxLines);
      if writeOk {
        saved := Snapshot(lines);
      }
    }

    method OnStdout(payload: Payload, now: int, writeOk: bool)
      modifies this
      ensures lines == Appended(old(lines), LogLine(Stdout, PayloadString(payload), now), maxLines)
      ensures saved == if writeOk then Snapshot(lines) else old(saved)
      ensures maxLines == old(maxLines)
    {
      OnLine(Stdout, payload, now, writeOk);
    }

    method OnStderr(payload: Payload, now: int, writeOk: bool)
      modifies this
      ensures lines == Appended(old(lines), LogLine(Stderr, PayloadString(payload), now), maxLines)
      ensures saved == if writeOk then Snapshot(lines) else old(saved)
      ensures maxLines == old(maxLines)
    {
      OnLine(Stderr, payload, now, writeOk);
    }

    /**
     * A new `maxLines` prop: the listeners are subscribed again with it. The
     * buffer is not cut at once; the new capacity applies from the next line.
     */
    method SetMaxLines(m: int)
      modifies this
      ensures maxLines == m && lines == old(lines) && saved == old(saved)
    {
      maxLines := m;
    }
  }
}
