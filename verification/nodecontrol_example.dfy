/**
 * The example node control panel shipped for web clients: the same status
 * heuristics, start poll and stop as the desktop panel, but it reads the
 * status command's answer as a bare string and shows neither pid nor port.
 */
module NodeControlExample {
  import opened Text
  import ConnectionMonitor
  import LogViewer
  import NodeControl

  /** This panel's running test: the answer is exactly the string `running`. */
  predicate StringRunning(a: ConnectionMonitor.StatusAnswer) {
    a.BareString? && a.text == NodeControl.Running
  }

  datatype ExampleView = ExampleView(status: string, busy: bool)

  const InitialExample := ExampleView(NodeControl.Stopped, false)

  /**
   * The initial status query: a thrown error shows `error` even after an
   * unmount; a late answer is otherwise dropped; the string `running` shows
   * `running` and any other answer `stopped`.
   */
  function InitialProbe(v: ExampleView, a: ConnectionMonitor.StatusAnswer, mounted: bool): (r: ExampleView)
    ensures a.InvokeError? ==> r == v.(status := NodeControl.Error)
    ensures !a.InvokeError? && !mounted ==> r == v
    ensures !a.InvokeError? && mounted ==>
      r.busy == v.busy && (r.status == NodeControl.Running <==> StringRunning(a))
      && (r.status == NodeControl.Running || r.status == NodeControl.Stopped)
  {
    if a.InvokeError? then v.(status := NodeControl.Error)
    else if !mounted then v
    else v.(status := if StringRunning(a) then NodeControl.Running else NodeControl.Stopped)
  }

  /** The two panels read the status command's actual answer differently. */
  lemma PanelsDisagreeOnBareRunning()
    ensures InitialProbe(InitialExample, ConnectionMonitor.BareString("running"), true).status == NodeControl.Running
    ensures NodeControl.InitialProbe(NodeControl.InitialPanel, ConnectionMonitor.BareString("running"), true).status
      == NodeControl.Stopped
  {
  }

  datatype StartResult = StartResult(view: ExampleView, checks: nat)

  /** `start`: as on the desktop panel, with the string test. */
  function StartEffect(v: ExampleView, outcome: ConnectionMonitor.CommandOutcome, rounds: seq<ConnectionMonitor.Round>): (r: StartResult)
    ensures v.busy ==> r == StartResult(v, 0)
    ensures !v.busy ==> !r.view.busy && (r.view.status == NodeControl.Running || r.view.status == NodeControl.Error)
    ensures !v.busy ==>
      (r.view.status == NodeControl.Running <==> outcome.CommandOk? && NodeControl.StartPoll(rounds, StringRunning).Some?)
    ensures r.checks <= |rounds| && forall j :: 0 <= j < r.checks ==> rounds[j].elapsedMs < NodeControl.StartWindowMs
  {
    if v.busy then StartResult(v, 0)
    else if outcome.CommandFailed? then StartResult(v.(status := NodeControl.Error, busy := false), 0)
    else if NodeControl.StartPoll(rounds, StringRunning).Some?
    then StartResult(v.(status := NodeControl.Running, busy := false), NodeControl.ChecksMade(rounds, StringRunning))
    else StartResult(v.(status := NodeControl.Error, busy := false), NodeControl.ChecksMade(rounds, StringRunning))
  }

  /**
   * Against the same answers, a `running` string inside the window starts this
   * panel, while the desktop panel still ends in `error`.
   */
  lemma StartDivergesOnBareRunning(elapsedMs: int)
    requires elapsedMs < NodeControl.StartWindowMs
    ensures var rounds := [ConnectionMonitor.Round(elapsedMs, ConnectionMonitor.BareString("running"))];
      && StartEffect(InitialExample, ConnectionMonitor.CommandOk, rounds).view.status == NodeControl.Running
      && NodeControl.StartEffect(NodeControl.InitialPanel, ConnectionMonitor.CommandOk, rounds).view.status == NodeControl.Error
  {
    var rounds := [ConnectionMonitor.Round(elapsedMs, ConnectionMonitor.BareString("running"))];
    assert StringRunning(rounds[0].answer);
  }

  /** `stop`: ignored while busy; otherwise `stopped` or `error`, and busy is cleared. */
  function StopEffect(v: ExampleView, outcome: ConnectionMonitor.CommandOutcome): (r: ExampleView)
    ensures v.busy ==> r == v
    ensures !v.busy ==> r == ExampleView(if outcome.CommandOk? then NodeControl.Stopped else NodeControl.Error, false)
  {
    if v.busy then v
    else if outcome.CommandOk? then v.(status := NodeControl.Stopped, busy := false)
    else v.(status := NodeControl.Error, busy := false)
  }

  class ExamplePanel {
    var status: string
    var busy: bool
    var mounted: bool

    function View(): ExampleView
      reads this
    {
      ExampleView(status, busy)
    }

    constructor ()
      ensures View() == InitialExample && mounted
    {
      status, busy := NodeControl.Stopped, false;
      mounted := true;
    }

    method OnInitialStatus(a: ConnectionMonitor.StatusAnswer)
      modifies this
      ensures View() == InitialProbe(old(View()), a, mounted) && mounted == old(mounted)
    {
      if a.InvokeError? {
        status := NodeControl.Error;
        return;
      }
      if !mounted {
        return;
      }
      status := if StringRunning(a) then NodeControl.Running else NodeControl.Stopped;
    }

    method OnStdout(payload: LogViewer.Payload)
      modifies this
      ensures View() == if NodeControl.SignalsRunning(LogViewer.PayloadOrEmpty(payload))
        then old(View()).(status := NodeControl.Running) else old(View())
      ensures mounted == old(mounted)
    {
      if NodeControl.SignalsRunning(LogViewer.PayloadOrEmpty(payload)) {
        status := NodeControl.Running;
      }
    }

    method OnStderr(payload: LogViewer.Payload)
      modifies this
      ensures View() == if NodeControl.SignalsError(LogViewer.PayloadOrEmpty(payload))
        then old(View()).(status := NodeControl.Error) else old(View())
      ensures mounted == old(mounted)
    {
      if NodeControl.SignalsError(LogViewer.PayloadOrEmpty(payload)) {
        status := NodeControl.Error;
      }
    }

    method Start(outcome: ConnectionMonitor.CommandOutcome, rounds: seq<ConnectionMonitor.Round>) returns (checks: nat)
      modifies this
      ensures var r := StartEffect(old(View()), outcome, rounds);
        View() == r.view && checks == r.checks
      ensures mounted == old(mounted)
    {
      checks := 0;
      if busy {
        return;
      }
      busy := true;
      status := NodeControl.Starting;
      if outcome.CommandFailed? {
        status := NodeControl.Error;
        busy := false;
        return;
      }
      ghost var n := NodeControl.WindowCount(rounds, NodeControl.StartWindowMs);
      var i := 0;
      while i < |rounds| && rounds[i].elapsedMs < NodeControl.StartWindowMs
        invariant 0 <= i <= n && checks == i
        invariant forall j :: 0 <= j < i ==> !StringRunning(rounds[j].answer)
        invariant busy && mounted == old(mounted)
      {
        checks := checks + 1;
        if StringRunning(rounds[i].answer) {
          status := NodeControl.Running;
          busy := false;
          assert NodeControl.StartPoll(rounds, StringRunning) == Some(i);
          return;
        }
        i := i + 1;
      }
      assert NodeControl.StartPoll(rounds, StringRunning).None?;
      status := NodeControl.Error;
      busy := false;
    }

    method Stop(outcome: ConnectionMonitor.CommandOutcome)
      modifies this
      ensures View() == StopEffect(old(View()), outcome) && mounted == old(mounted)
    {
      if busy {
        return;
      }
      busy := true;
      status := NodeControl.Stopping;
      status := if outcome.CommandOk? then NodeControl.Stopped else NodeControl.Error;
      busy := false;
    }

    method Unmount()
      modifies this
      ensures View() == old(View()) && !mounted
    {
      mounted := false;
    }
  }
}
