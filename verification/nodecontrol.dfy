/**
 * The node control panel: the status it shows, the initial status query,
 * the log-line heuristics that move the status, start with its short
 * status poll, stop, and the text of the diagnostics export.
 *
 * The start, stop and status commands are replaced by their outcomes; the
 * start poll's clock by the elapsed time recorded for each check; the
 * locale date formatting by a function parameter.
 */
module NodeControl {
  import opened Text
  import ConnectionMonitor
  import LogViewer

  const Stopped := "stopped"
  const Starting := "starting"
  const Running := "running"
  const Stopping := "stopping"
  const Error := "error"

  /** The start poll runs while less than this has elapsed since the start command returned. */
  const StartWindowMs := 5000
  const StartPollIntervalMs := 300

  /** Lower-case alternatives of the stdout readiness pattern. */
  const ReadyPatterns := ["listening", "ready", "started", "server listening"]
  /** Lower-case alternatives of the stderr error pattern. */
  const ErrorPatterns := ["error", "panic", "failed", "fatal"]

  const NoLogsText := "No captured logs available."

  /** A case-insensitive match of an alternation of lower-case words. */
  predicate MatchesAny(text: string, patterns: seq<string>) {
    exists k :: 0 <= k < |patterns| && Contains(Lower(text), patterns[k])
  }

  predicate SignalsRunning(text: string) {
    MatchesAny(text, ReadyPatterns)
  }

  predicate SignalsError(text: string) {
    MatchesAny(text, ErrorPatterns)
  }

  /** The heuristics do not depend on letter case. */
  lemma {:induction false} HeuristicsIgnoreCase(text: string)
    ensures SignalsRunning(text) <==> SignalsRunning(Lower(text))
    ensures SignalsError(text) <==> SignalsError(Lower(text))
  {
    LowerIdempotent(text);
  }

  /** The `server listening` alternative adds nothing: any text it matches, `listening` matches. */
  lemma ServerListeningIsRedundant(text: string)
    ensures SignalsRunning(text) <==> exists k :: 0 <= k < 3 && Contains(Lower(text), ReadyPatterns[k])
  {
    var t := Lower(text);
    if SignalsRunning(text) {
      var k :| 0 <= k < |ReadyPatterns| && Contains(t, ReadyPatterns[k]);
      if k == 3 {
        ListeningInServerListening();
        ContainsTransitive(t, ReadyPatterns[3], ReadyPatterns[0]);
        assert 0 <= 0 < 3 && Contains(t, ReadyPatterns[0]);
      }
    }
    if exists k :: 0 <= k < 3 && Contains(t, ReadyPatterns[k]) {
      var k :| 0 <= k < 3 && Contains(t, ReadyPatterns[k]);
      assert 0 <= k < |ReadyPatterns|;
    }
  }

  /** `listening` occurs in `server listening`, at position 7. */
  lemma ListeningInServerListening()
    ensures Contains(ReadyPatterns[3], ReadyPatterns[0])
  {
    var s, w := ReadyPatterns[3], ReadyPatterns[0];
    assert s[7..7 + |w|] == w;
    assert OccursAt(s, w, 7);
    ContainsIff(s, w);
  }

  /** A line signals readiness exactly when one of the words occurs in it, in any case. */
  lemma SignalsRunningIff(text: string)
    ensures SignalsRunning(text) <==>
      exists k, i :: 0 <= k < |ReadyPatterns| && OccursAt(Lower(text), ReadyPatterns[k], i)
  {
    var t := Lower(text);
    if SignalsRunning(text) {
      var k :| 0 <= k < |ReadyPatterns| && Contains(t, ReadyPatterns[k]);
      ContainsIff(t, ReadyPatterns[k]);
      var i :| OccursAt(t, ReadyPatterns[k], i);
    }
    if exists k, i :: 0 <= k < |ReadyPatterns| && OccursAt(t, ReadyPatterns[k], i) {
      var k, i :| 0 <= k < |ReadyPatterns| && OccursAt(t, ReadyPatterns[k], i);
      ContainsIff(t, ReadyPatterns[k]);
      assert Contains(Lower(text), ReadyPatterns[k]);
      assert MatchesAny(text, ReadyPatterns);
    }
  }

  /** A line with none of the error words, in any case, never moves the status to error. */
  lemma CleanLineIsNoError(text: string)
    requires forall k, i :: 0 <= k < |ErrorPatterns| ==> !OccursAt(Lower(text), ErrorPatterns[k], i)
    ensures !SignalsError(text)
  {
    forall k | 0 <= k < |ErrorPatterns| {
      ContainsIff(Lower(text), ErrorPatterns[k]);
    }
  }

  // ---------------------------------------------------------------------
  // Start poll, shared by both panels
  // ---------------------------------------------------------------------

  /** How many leading checks fall inside the window. */
  function WindowCount(rounds: seq<ConnectionMonitor.Round>, window: int): (n: nat)
    ensures n <= |rounds|
    ensures forall j :: 0 <= j < n ==> rounds[j].elapsedMs < window
    ensures n < |rounds| ==> rounds[n].elapsedMs >= window
  {
    if rounds == [] || rounds[0].elapsedMs >= window then 0
    else 1 + WindowCount(rounds[1..], window)
  }

  /** The first of the checks `from..n` whose answer `accept` takes. */
  function FirstAccepted(rounds: seq<ConnectionMonitor.Round>, n: nat, accept: ConnectionMonitor.StatusAnswer -> bool, from: nat): (r: Option<nat>)
    requires from <= n <= |rounds|
    ensures r.Some? ==>
      && from <= r.value < n && accept(rounds[r.value].answer)
      && forall j :: from <= j < r.value ==> !accept(rounds[j].answer)
    ensures r.None? ==> forall j :: from <= j < n ==> !accept(rounds[j].answer)
    decreases n - from
  {
    if from == n then None
    else if accept(rounds[from].answer) then Some(from)
    else FirstAccepted(rounds, n, accept, from + 1)
  }

  /** The start poll's verdict: the index of the check that saw the node running, if one did within the window. */
  function StartPoll(rounds: seq<ConnectionMonitor.Round>, accept: ConnectionMonitor.StatusAnswer -> bool): (r: Option<nat>)
    ensures r.Some? ==>
      && r.value < |rounds| && rounds[r.value].elapsedMs < StartWindowMs && accept(rounds[r.value].answer)
      && forall j :: 0 <= j < r.value ==> !accept(rounds[j].answer)
    ensures r.None? ==> forall j :: 0 <= j < WindowCount(rounds, StartWindowMs) ==> !accept(rounds[j].answer)
  {
    FirstAccepted(rounds, WindowCount(rounds, StartWindowMs), accept, 0)
  }

  /** The checks the poll makes: up to and including the accepted one, or all those inside the window. */
  function ChecksMade(rounds: seq<ConnectionMonitor.Round>, accept: ConnectionMonitor.StatusAnswer -> bool): (n: nat)
    ensures n <= |rounds|
    ensures forall j :: 0 <= j < n ==> rounds[j].elapsedMs < StartWindowMs
  {
    var found := StartPoll(rounds, accept);
    if found.Some? then found.value + 1 else WindowCount(rounds, StartWindowMs)
  }

  /** This panel's running test: the answer is a record whose state is exactly `running`. */
  predicate RecordRunning(a: ConnectionMonitor.StatusAnswer) {
    a.Reported? && a.status.state == Some(Running)
  }

  // ---------------------------------------------------------------------
  // Panel state
  // ---------------------------------------------------------------------

  datatype PanelView = PanelView(status: string, busy: bool, pid: Option<int>, clientPort: Option<int>)

  const InitialPanel := PanelView(Stopped, false, None, None)

  /**
   * The initial status query: a thrown error shows `error` even after an
   * unmount; a late answer is otherwise dropped; an answer's state (or
   * `stopped` when it has none), pid and port are shown.
   */
  function InitialProbe(v: PanelView, a: ConnectionMonitor.StatusAnswer, mounted: bool): (r: PanelView)
    ensures a.InvokeError? ==> r == v.(status := Error)
    ensures !a.InvokeError? && !mounted ==> r == v
    ensures !a.InvokeError? && mounted ==>
      && r.busy == v.busy && r.pid == ConnectionMonitor.Fields(a).pid
      && r.clientPort == ConnectionMonitor.Fields(a).clientPort
      && r.status == (if ConnectionMonitor.Fields(a).state.Some? then ConnectionMonitor.Fields(a).state.value else Stopped)
  {
    if a.InvokeError? then v.(status := Error)
    else if !mounted then v
    else
      var s := ConnectionMonitor.Fields(a);
      v.(status := if s.state.Some? then s.state.value else Stopped, pid := s.pid, clientPort := s.clientPort)
  }

  /** A bare `running` string, which is what the status command answers, is shown as `stopped` by this panel. */
  lemma BareRunningShownAsStopped(v: PanelView)
    ensures InitialProbe(v, ConnectionMonitor.BareString(Running), true).status == Stopped
  {
  }

  datatype StartResult = StartResult(view: PanelView, checks: nat)

  /**
   * `start`: ignored while busy; otherwise the status goes to `starting`,
   * and ends `running` (with the pid and port of the answer) when a check
   * inside the window sees a running record, and `error` otherwise. Busy is
   * cleared on every path.
   */
  function StartEffect(v: PanelView, outcome: ConnectionMonitor.CommandOutcome, rounds: seq<ConnectionMonitor.Round>): (r: StartResult)
    ensures v.busy ==> r == StartResult(v, 0)
    ensures !v.busy ==> !r.view.busy && (r.view.status == Running || r.view.status == Error)
    ensures !v.busy ==> (r.view.status == Running <==> outcome.CommandOk? && StartPoll(rounds, RecordRunning).Some?)
    ensures r.checks <= |rounds| && forall j :: 0 <= j < r.checks ==> rounds[j].elapsedMs < StartWindowMs
    ensures !v.busy && r.view.status == Running ==>
      var s := rounds[StartPoll(rounds, RecordRunning).value].answer.status;
      r.view == v.(status := Running, pid := s.pid, clientPort := s.clientPort, busy := false)
    ensures !v.busy && r.view.status == Error ==> r.view == v.(status := Error, busy := false)
  {
    if v.busy then StartResult(v, 0)
    else if outcome.CommandFailed? then StartResult(v.(status := Error, busy := false), 0)
    else match StartPoll(rounds, RecordRunning)
      case Some(i) =>
        var s := ConnectionMonitor.Fields(rounds[i].answer);
        StartResult(v.(status := Running, pid := s.pid, clientPort := s.clientPort, busy := false), ChecksMade(rounds, RecordRunning))
      case None => StartResult(v.(status := Error, busy := false), ChecksMade(rounds, RecordRunning))
  }

  /** Against a status command that answers with bare strings, this panel's start always ends in `error`. */
  lemma StartAgainstBareStatusFails(v: PanelView, outcome: ConnectionMonitor.CommandOutcome, rounds: seq<ConnectionMonitor.Round>)
    requires !v.busy
    requires forall j :: 0 <= j < |rounds| ==> rounds[j].answer.BareString?
    ensures StartEffect(v, outcome, rounds).view.status == Error
  {
  }

  /** `stop`: ignored while busy; otherwise `stopped` with pid and port cleared, or `error`; busy is cleared. */
  function StopEffect(v: PanelView, outcome: ConnectionMonitor.CommandOutcome): (r: PanelView)
    ensures v.busy ==> r == v
    ensures !v.busy && outcome.CommandOk? ==> r == PanelView(Stopped, false, None, None)
    ensures !v.busy && outcome.CommandFailed? ==> r == v.(status := Error)
  {
    if v.busy then v
    else if outcome.CommandOk? then v.(status := Stopped, pid := None, clientPort := None, busy := false)
    else v.(status := Error, busy := false)
  }

  // ---------------------------------------------------------------------
  // Diagnostics export
  // ---------------------------------------------------------------------

  /**
   * The log copy as the export finds it: nothing (no key, a storage error,
   * or an empty string), text that is not an array of records, or the records.
   */
  datatype StoredLogs = NoLogs | Unparseable(raw: string) | Parsed(records: seq<LogViewer.LogRecord>)

  /** `[time] ORIGIN: text`. */
  function ExportLine(r: LogViewer.LogRecord, formatTime: int -> string): string {
    "[" + formatTime(r.ts) + "] " + Upper(r.origin) + ": " + r.text
  }

  function ExportLines(records: seq<LogViewer.LogRecord>, formatTime: int -> string): (r: seq<string>)
    ensures |r| == |records|
    ensures forall k :: 0 <= k < |records| ==> r[k] == ExportLine(records[k], formatTime)
  {
    seq(|records|, k requires 0 <= k < |records| => ExportLine(records[k], formatTime))
  }

  /** The exported file's text. */
  function ExportContents(stored: StoredLogs, formatTime: int -> string): (r: string)
    ensures stored.NoLogs? ==> r == NoLogsText
    ensures stored.Unparseable? ==> r == stored.raw
    ensures stored == Parsed([]) ==> r == ""
  {
    match stored
    case NoLogs => NoLogsText
    case Unparseable(raw) => raw
    case Parsed(records) => JoinLines(ExportLines(records, formatTime))
  }

  /** An empty stored array exports as an empty file, not as the no-logs notice. */
  lemma EmptyLogExportsEmptyText(formatTime: int -> string)
    ensures ExportContents(Parsed([]), formatTime) == ""
    ensures ExportContents(NoLogs, formatTime) == NoLogsText
  {
  }

  lemma NoNewlineUpper(s: string)
    requires NoNewline(s)
    ensures NoNewline(Upper(s))
  {
  }

  lemma {:induction false} NoNewlineConcat(a: string, b: string)
    requires NoNewline(a) && NoNewline(b)
    ensures NoNewline(a + b)
  {
    forall k | 0 <= k < |a + b| ensures (a + b)[k] != '\n' {
      if k < |a| {
        assert (a + b)[k] == a[k];
      } else {
        assert (a + b)[k] == b[k - |a|];
      }
    }
  }

  lemma ExportLineHasNoNewline(r: LogViewer.LogRecord, formatTime: int -> string)
    requires NoNewline(r.origin) && NoNewline(r.text) && NoNewline(formatTime(r.ts))
    ensures NoNewline(ExportLine(r, formatTime))
  {
    NoNewlineUpper(r.origin);
    var t := formatTime(r.ts);
    NoNewlineConcat("[", t);
    NoNewlineConcat("[" + t, "] ");
    NoNewlineConcat("[" + t + "] ", Upper(r.origin));
    NoNewlineConcat("[" + t + "] " + Upper(r.origin), ": ");
    NoNewlineConcat("[" + t + "] " + Upper(r.origin) + ": ", r.text);
  }

  /**
   * The export of what the log panel persisted has one line per buffered log
   * line, in order, labelled with its stream, as long as no log text and no
   * formatted time holds a newline.
   */
  lemma ExportOfSnapshotListsEveryLine(lines: seq<LogViewer.LogLine>, formatTime: int -> string)
    requires lines != []
    requires forall k :: 0 <= k < |lines| ==> NoNewline(lines[k].text)
    requires forall t :: NoNewline(formatTime(t))
    ensures var out := SplitLines(ExportContents(Parsed(LogViewer.Snapshot(lines)), formatTime));
      && |out| == |lines|
      && forall k :: 0 <= k < |lines| ==>
           out[k] == "[" + formatTime(lines[k].ts) + "] " + Upper(LogViewer.OriginName(lines[k].origin)) + ": " + lines[k].text
  {
    var records := LogViewer.Snapshot(lines);
    var out := ExportLines(records, formatTime);
    forall k | 0 <= k < |out| ensures NoNewline(out[k]) {
      assert NoNewline(LogViewer.OriginName(lines[k].origin));
      ExportLineHasNoNewline(records[k], formatTime);
    }
    SplitJoin(out);
  }

  // ---------------------------------------------------------------------
  // The panel
  // ---------------------------------------------------------------------

  class Panel {
    var status: string
    var busy: bool
    var pid: Option<int>
    var clientPort: Option<int>
    /** Cleared by the initial query effect's cleanup. */
    var mounted: bool

    function View(): PanelView
      reads this
    {
      PanelView(status, busy, pid, clientPort)
    }

    constructor ()
      ensures View() == InitialPanel && mounted
    {
      status, busy, pid, clientPort := Stopped, false, None, None;
      mounted := true;
    }

    /** The answer to the initial status query arriving. */
    method OnInitialStatus(a: ConnectionMonitor.StatusAnswer)
      modifies this
      ensures View() == InitialProbe(old(View()), a, mounted) && mounted == old(mounted)
    {
      if a.InvokeError? {
        status := Error;
        return;
      }
      if !mounted {
        return;
      }
      var s := ConnectionMonitor.Fields(a);
      status := if s.state.Some? then s.state.value else Stopped;
      pid := s.pid;
      clientPort := s.clientPort;
    }

    /** A stdout line: the status becomes `running` when it matches the readiness words. */
    method OnStdout(payload: LogViewer.Payload)
      modifies this
      ensures View() == if SignalsRunning(LogViewer.PayloadOrEmpty(payload)) then old(View()).(status := Running) else old(View())
      ensures mounted == old(mounted)
    {
      if SignalsRunning(LogViewer.PayloadOrEmpty(payload)) {
        status := Running;
      }
    }

    /** A stderr line: the status becomes `error` when it matches the error words. */
    method OnStderr(payload: LogViewer.Payload)
      modifies this
      ensures View() == if SignalsError(LogViewer.PayloadOrEmpty(payload)) then old(View()).(status := Error) else old(View())
      ensures mounted == old(mounted)
    {
      if SignalsError(LogViewer.PayloadOrEmpty(payload)) {
        status := Error;
      }
    }

    /** A port-detected event; `None` stands for a payload that is not a number. */
    method OnPortDetected(port: Option<int>)
      modifies this
      ensures View() == if port.Some? then old(View()).(clientPort := port) else old(View())
      ensures mounted == old(mounted)
    {
      if port.Some? {
        clientPort := port;
      }
    }

    /** `start`, with the start command's outcome and the status checks of the poll. */
    method Start(outcome: ConnectionMonitor.CommandOutcome, rounds: seq<ConnectionMonitor.Round>) returns (checks: nat)
      modifies this
      ensures var r := StartEffect(old(View()), outcome, rounds);
        View() == r.view && checks == r.checks
      ensures mounted == old(mounted)
    {
      checks := 0;
      if busy {
        return;
      }
      busy := true;
      status := Starting;
      if outcome.CommandFailed? {
        status := Error;
        busy := false;
        return;
      }
      ghost var n := WindowCount(rounds, StartWindowMs);
      var i := 0;
      while i < |rounds| && rounds[i].elapsedMs < StartWindowMs
        invariant 0 <= i <= n && checks == i
        invariant forall j :: 0 <= j < i ==> !RecordRunning(rounds[j].answer)
        invariant busy && mounted == old(mounted)
        invariant pid == old(pid) && clientPort == old(clientPort)
      {
        checks := checks + 1;
        var a := rounds[i].answer;
        if RecordRunning(a) {
          status := Running;
          pid := a.status.pid;
          clientPort := a.status.clientPort;
          busy := false;
          assert StartPoll(rounds, RecordRunning) == Some(i);
          assert ChecksMade(rounds, RecordRunning) == checks;
          return;
        }
        i := i + 1;
      }
      assert i == n;
      assert StartPoll(rounds, RecordRunning).None?;
      assert ChecksMade(rounds, RecordRunning) == checks;
      status := Error;
      busy := false;
    }

    method Stop(outcome: ConnectionMonitor.CommandOutcome)
      modifies this
      ensures View() == StopEffect(old(View()), outcome) && mounted == old(mounted)
    {
      if busy {
        return;
      }
      busy := true;
      status := Stopping;
      if outcome.CommandOk? {
        status := Stopped;
        pid := None;
        clientPort := None;
      } else {
        status := Error;
      }
      busy := false;
    }

    method Unmount()
      modifies this
      ensures View() == old(View()) && !mounted
    {
      mounted := false;
    }
  }
}
