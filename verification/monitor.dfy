/**
 * The node-readiness monitor hook: a probe of the local node's status, the
 * polling loop that repeats it until the node is ready, a one-shot refresh,
 * and the start/stop helpers.
 *
 * The status command is replaced by its answers. The poll interval wait and
 * the clock are replaced by the elapsed time recorded for each round.
 */
module ConnectionMonitor {
  import opened Text

  const RunningState := "running"
  const UnknownState := "unknown"
  const ErrorState := "error"
  const StartingState := "starting"
  const StoppingState := "stopping"

  /** The record the status command is expected to answer with; every field may be absent. */
  datatype NodeStatus = NodeStatus(
    state: Option<string>,
    pid: Option<int>,
    uptimeSeconds: Option<int>,
    clientPort: Option<int>,
    errorMessage: Option<string>)

  /**
   * An answer of the status command: the record, a bare string (which has
   * none of the record's fields), or a thrown error with its message.
   */
  datatype StatusAnswer = Reported(status: NodeStatus) | BareString(text: string) | InvokeError(message: string)

  /** The outcome of a start or stop command. */
  datatype CommandOutcome = CommandOk | CommandFailed(message: string)

  /** The state the hook exposes. */
  datatype MonitorView = MonitorView(
    status: string,
    pid: Option<int>,
    clientPort: Option<int>,
    uptime: Option<int>,
    errorMessage: Option<string>,
    ready: bool,
    probing: bool)

  const InitialView := MonitorView(UnknownState, None, None, None, None, false, false)

  /** The fields read from an answer that did not throw. */
  function Fields(a: StatusAnswer): NodeStatus
    requires !a.InvokeError?
  {
    if a.Reported? then a.status else NodeStatus(None, None, None, None, None)
  }

  /** Ready: the state lower-cases to `running` and, when a port is required, a port is reported. */
  predicate IsReady(state: Option<string>, clientPort: Option<int>, requiredPort: bool): (r: bool)
    ensures r ==> state.Some?
    ensures requiredPort && clientPort.None? ==> !r
  {
    Lower(if state.Some? then state.value else "") == RunningState && (!requiredPort || clientPort.Some?)
  }

  /** An answer that makes the probe succeed. */
  predicate ReadyAnswer(a: StatusAnswer, requiredPort: bool) {
    !a.InvokeError? && IsReady(Fields(a).state, Fields(a).clientPort, requiredPort)
  }

  /** The status fields copied from an answer. */
  function Copied(v: MonitorView, s: NodeStatus): MonitorView {
    v.(status := if s.state.Some? then s.state.value else UnknownState,
       pid := s.pid, clientPort := s.clientPort, uptime := s.uptimeSeconds, errorMessage := s.errorMessage)
  }

  /** The port counts as reported whenever present, zero included. */
  lemma PortZeroCountsAsReported()
    ensures IsReady(Some("running"), Some(0), true)
    ensures !IsReady(Some("running"), None, true)
  {
  }

  /** The state comparison ignores case, and only a seven-letter state can be `running`. */
  lemma ReadyIgnoresCase(state: string, clientPort: Option<int>, requiredPort: bool)
    ensures IsReady(Some(Upper(state)), clientPort, requiredPort) <==> IsReady(Some(state), clientPort, requiredPort)
    ensures IsReady(Some(state), clientPort, requiredPort) ==> |state| == |RunningState|
  {
    LowerOfUpper(state);
  }

  datatype ProbeResult = ProbeResult(view: MonitorView, ok: bool)

  /**
   * One probe. After an unmount only `probing` is raised; otherwise the
   * fields are copied (or the error recorded), `ready` is raised on a ready
   * answer and `probing` ends lowered.
   */
  function ProbeEffect(v: MonitorView, a: StatusAnswer, requiredPort: bool, mounted: bool): (r: ProbeResult)
    ensures r.ok <==> mounted && ReadyAnswer(a, requiredPort)
    ensures r.view.ready == (v.ready || r.ok)
    ensures !mounted ==> r.view == v.(probing := true)
    ensures mounted ==> !r.view.probing
    ensures mounted && a.InvokeError? ==>
      r.view == v.(status := ErrorState, errorMessage := Some(a.message), probing := false)
    ensures mounted && !a.InvokeError? ==>
      r.view.(ready := v.ready, probing := v.probing) == Copied(v, Fields(a))
  {
    var raised := v.(probing := true);
    if !mounted then ProbeResult(raised, false)
    else if a.InvokeError? then
      ProbeResult(raised.(status := ErrorState, errorMessage := Some(a.message), probing := false), false)
    else
      var copied := Copied(raised, Fields(a)).(probing := false);
      if IsReady(Fields(a).state, Fields(a).clientPort, requiredPort)
      then ProbeResult(copied.(ready := true), true)
      else ProbeResult(copied, false)
  }

  /**
   * `refreshStatus`: a report after an unmount is dropped, but a thrown error
   * is recorded whether or not the hook is mounted; `ready` is recomputed
   * from the answer, so it can be lowered.
   */
  function RefreshEffect(v: MonitorView, a: StatusAnswer, requiredPort: bool, mounted: bool): (r: MonitorView)
    ensures a.InvokeError? ==> r == v.(status := ErrorState, errorMessage := Some(a.message))
    ensures !a.InvokeError? && !mounted ==> r == v
    ensures !a.InvokeError? && mounted ==> r.ready == ReadyAnswer(a, requiredPort) && r.probing == v.probing
    ensures !a.InvokeError? && mounted ==> r.(ready := v.ready) == Copied(v, Fields(a))
  {
    if a.InvokeError? then v.(status := ErrorState, errorMessage := Some(a.message))
    else if !mounted then v
    else Copied(v, Fields(a)).(ready := IsReady(Fields(a).state, Fields(a).clientPort, requiredPort))
  }

  /** Unlike the polling probe, a refresh can take `ready` back down. */
  lemma RefreshCanLowerReady()
    ensures var v := InitialView.(ready := true);
      !RefreshEffect(v, Reported(NodeStatus(Some("stopped"), None, None, None, None)), true, true).ready
  {
  }

  /** A probe never lowers `ready`. */
  lemma ProbeNeverLowersReady(v: MonitorView, a: StatusAnswer, requiredPort: bool, mounted: bool)
    requires v.ready
    ensures ProbeEffect(v, a, requiredPort, mounted).view.ready
  {
  }

  /** One check before a wait: the time elapsed since the effect began, and the answer seen then. */
  datatype Round = Round(elapsedMs: int, answer: StatusAnswer)

  /**
   * One round of the monitor's loop: the time elapsed at the loop's check,
   * the probe's answer, and whether the cleanup ran after that check, during
   * the wait or while the query was in flight, so that the answer arrives
   * after the unmount.
   */
  datatype PollRound = PollRound(elapsedMs: int, answer: StatusAnswer, unmounted: bool)

  datatype PollEnd = PollEnd(view: MonitorView, probes: nat, mounted: bool)

  /**
   * The `while (polling)` loop over the supplied rounds: it stops when the
   * hook is unmounted at the check, when a positive timeout has passed, or
   * after a successful probe; running out of rounds ends the observation.
   * Nothing between the wait and the next probe looks at the mount, so a
   * cleanup during the wait still lets that one probe run.
   */
  function PollLoop(v: MonitorView, rounds: seq<PollRound>, requiredPort: bool, timeout: int, mounted: bool): (r: PollEnd)
    ensures r.probes <= |rounds|
    ensures !mounted ==> r == PollEnd(v, 0, false)
    ensures forall j :: 0 <= j < r.probes - 1 ==> !ReadyAnswer(rounds[j].answer, requiredPort) && !rounds[j].unmounted
    ensures r.mounted <==> mounted && forall j :: 0 <= j < r.probes ==> !rounds[j].unmounted
    ensures mounted && !r.mounted ==> r.view.probing
    decreases |rounds|
  {
    if rounds == [] || !mounted || (timeout > 0 && rounds[0].elapsedMs > timeout) then PollEnd(v, 0, mounted)
    else
      var live := !rounds[0].unmounted;
      var p := ProbeEffect(v, rounds[0].answer, requiredPort, live);
      if p.ok then PollEnd(p.view, 1, true)
      else
        var rest := PollLoop(p.view, rounds[1..], requiredPort, timeout, live);
        assert forall j :: 1 <= j < rest.probes ==> rounds[j] == rounds[1..][j - 1];
        PollEnd(rest.view, rest.probes + 1, rest.mounted)
  }

  /** The effect's whole run: the immediate probe, then the loop unless it already succeeded. */
  function Monitoring(v: MonitorView, first: StatusAnswer, rounds: seq<PollRound>, requiredPort: bool, timeout: int, mounted: bool): (r: PollEnd)
    ensures !mounted ==> r == PollEnd(v.(probing := true), 0, false)
    ensures mounted && ReadyAnswer(first, requiredPort) ==> r.probes == 0 && r.view.ready && r.mounted
    ensures r.probes <= |rounds|
    ensures forall j :: 0 <= j < r.probes - 1 ==> !rounds[j].unmounted
  {
    var p := ProbeEffect(v, first, requiredPort, mounted);
    if p.ok then PollEnd(p.view, 0, true) else PollLoop(p.view, rounds, requiredPort, timeout, mounted)
  }

  /** A loop result seen from `i` rounds earlier: the same end, `i` more probes. */
  function Shift(e: PollEnd, i: nat): PollEnd {
    PollEnd(e.view, e.probes + i, e.mounted)
  }

  /** The loop ends at its check: unmounted, past a positive timeout, or out of rounds. */
  lemma PollHalts(v: MonitorView, rounds: seq<PollRound>, requiredPort: bool, timeout: int, mounted: bool)
    requires rounds == [] || !mounted || (timeout > 0 && rounds[0].elapsedMs > timeout)
    ensures PollLoop(v, rounds, requiredPort, timeout, mounted) == PollEnd(v, 0, mounted)
  {
  }

  /** One round of the loop past its check: the probe, then the rest unless it succeeded. */
  lemma PollStep(v: MonitorView, rounds: seq<PollRound>, requiredPort: bool, timeout: int)
    requires rounds != [] && !(timeout > 0 && rounds[0].elapsedMs > timeout)
    ensures var live := !rounds[0].unmounted;
      var p := ProbeEffect(v, rounds[0].answer, requiredPort, live);
      PollLoop(v, rounds, requiredPort, timeout, true)
        == if p.ok then PollEnd(p.view, 1, true) else Shift(PollLoop(p.view, rounds[1..], requiredPort, timeout, live), 1)
  {
  }

  /**
   * A cleanup during the wait does not stop the next query: it still runs,
   * raises `probing` and nothing else, and the loop ends at the next check.
   */
  lemma {:induction false} UnmountInWaitProbesOnce(v: MonitorView, rounds: seq<PollRound>, requiredPort: bool, timeout: int, k: nat)
    requires k < |rounds| && rounds[k].unmounted
    requires forall j :: 0 <= j < k ==> !ReadyAnswer(rounds[j].answer, requiredPort) && !rounds[j].unmounted
    requires forall j :: 0 <= j <= k ==> !(timeout > 0 && rounds[j].elapsedMs > timeout)
    ensures var r := PollLoop(v, rounds, requiredPort, timeout, true);
      r.probes == k + 1 && !r.mounted && r.view == PollLoop(v, rounds[..k], requiredPort, timeout, true).view.(probing := true)
    decreases k
  {
    var live := !rounds[0].unmounted;
    var p := ProbeEffect(v, rounds[0].answer, requiredPort, live);
    PollStep(v, rounds, requiredPort, timeout);
    if k == 0 {
      PollHalts(p.view, rounds[1..], requiredPort, timeout, live);
      PollHalts(v, rounds[..0], requiredPort, timeout, true);
    } else {
      assert !p.ok && live;
      assert rounds[1..][k - 1] == rounds[k];
      forall j | 0 <= j <= k - 1 ensures rounds[1..][j] == rounds[j + 1] { }
      UnmountInWaitProbesOnce(p.view, rounds[1..], requiredPort, timeout, k - 1);
      PollStep(v, rounds[..k], requiredPort, timeout);
      assert rounds[..k][1..] == rounds[1..][..k - 1];
    }
  }

  /** The loop ends only on success, unmount, timeout, or when the rounds run out. */
  lemma {:induction false} PollStopsForAReason(v: MonitorView, rounds: seq<PollRound>, requiredPort: bool, timeout: int, mounted: bool)
    ensures var r := PollLoop(v, rounds, requiredPort, timeout, mounted);
      || r.probes == |rounds|
      || !r.mounted
      || (timeout > 0 && rounds[r.probes].elapsedMs > timeout)
      || (r.probes > 0 && ReadyAnswer(rounds[r.probes - 1].answer, requiredPort) && r.view.ready)
    decreases |rounds|
  {
    if rounds != [] && mounted && !(timeout > 0 && rounds[0].elapsedMs > timeout) {
      var live := !rounds[0].unmounted;
      var p := ProbeEffect(v, rounds[0].answer, requiredPort, live);
      if !p.ok {
        PollStopsForAReason(p.view, rounds[1..], requiredPort, timeout, live);
      }
    }
  }

  /** With a positive timeout, no round is probed whose check saw more time elapsed than the timeout. */
  lemma {:induction false} PollRespectsTimeout(v: MonitorView, rounds: seq<PollRound>, requiredPort: bool, timeout: int, mounted: bool)
    requires timeout > 0
    ensures var r := PollLoop(v, rounds, requiredPort, timeout, mounted);
      forall j :: 0 <= j < r.probes ==> rounds[j].elapsedMs <= timeout
    decreases |rounds|
  {
    if rounds != [] && mounted && rounds[0].elapsedMs <= timeout {
      var live := !rounds[0].unmounted;
      var p := ProbeEffect(v, rounds[0].answer, requiredPort, live);
      if !p.ok {
        PollRespectsTimeout(p.view, rounds[1..], requiredPort, timeout, live);
        var rest := PollLoop(p.view, rounds[1..], requiredPort, timeout, live);
        forall j | 1 <= j < rest.probes + 1 ensures rounds[j].elapsedMs <= timeout {
          assert rounds[j] == rounds[1..][j - 1];
        }
      }
    }
  }

  /** A timeout of zero never stops the loop: while mounted and not ready it probes every round. */
  lemma {:induction false} PollUnboundedWithoutTimeout(v: MonitorView, rounds: seq<PollRound>, requiredPort: bool)
    requires forall j :: 0 <= j < |rounds| ==> !ReadyAnswer(rounds[j].answer, requiredPort) && !rounds[j].unmounted
    ensures PollLoop(v, rounds, requiredPort, 0, true).probes == |rounds|
    decreases |rounds|
  {
    if rounds != [] {
      var p := ProbeEffect(v, rounds[0].answer, requiredPort, true);
      PollUnboundedWithoutTimeout(p.view, rounds[1..], requiredPort);
    }
  }

  /** Readiness, once raised, survives the loop. */
  lemma {:induction false} PollKeepsReady(v: MonitorView, rounds: seq<PollRound>, requiredPort: bool, timeout: int, mounted: bool)
    requires v.ready
    ensures PollLoop(v, rounds, requiredPort, timeout, mounted).view.ready
    decreases |rounds|
  {
    if rounds != [] && mounted && !(timeout > 0 && rounds[0].elapsedMs > timeout) {
      var live := !rounds[0].unmounted;
      var p := ProbeEffect(v, rounds[0].answer, requiredPort, live);
      if !p.ok {
        PollKeepsReady(p.view, rounds[1..], requiredPort, timeout, live);
      }
    }
  }

  /** The loop raises readiness only through a ready answer that arrived while mounted. */
  lemma {:induction false} PollReadyNeedsReadyAnswer(v: MonitorView, rounds: seq<PollRound>, requiredPort: bool, timeout: int, mounted: bool)
    requires !v.ready
    ensures var r := PollLoop(v, rounds, requiredPort, timeout, mounted);
      r.view.ready ==> exists j :: 0 <= j < r.probes && ReadyAnswer(rounds[j].answer, requiredPort) && !rounds[j].unmounted
    decreases |rounds|
  {
    if rounds != [] && mounted && !(timeout > 0 && rounds[0].elapsedMs > timeout) {
      var live := !rounds[0].unmounted;
      var p := ProbeEffect(v, rounds[0].answer, requiredPort, live);
      if !p.ok {
        PollReadyNeedsReadyAnswer(p.view, rounds[1..], requiredPort, timeout, live);
        var rest := PollLoop(p.view, rounds[1..], requiredPort, timeout, live);
        if rest.view.ready {
          var j :| 0 <= j < rest.probes && ReadyAnswer(rounds[1..][j].answer, requiredPort) && !rounds[1..][j].unmounted;
          assert rounds[j + 1] == rounds[1..][j];
        }
      }
    }
  }

  /** A status command that answers with a bare string never makes the monitor ready. */
  lemma BareStringAnswersNeverReady(first: string, rounds: seq<PollRound>, requiredPort: bool, timeout: int, mounted: bool)
    requires forall j :: 0 <= j < |rounds| ==> rounds[j].answer.BareString?
    ensures !Monitoring(InitialView, BareString(first), rounds, requiredPort, timeout, mounted).view.ready
  {
    var p := ProbeEffect(InitialView, BareString(first), requiredPort, mounted);
    assert !ReadyAnswer(BareString(first), requiredPort);
    PollReadyNeedsReadyAnswer(p.view, rounds, requiredPort, timeout, mounted);
  }

  class Monitor {
    var status: string
    var pid: Option<int>
    var clientPort: Option<int>
    var uptime: Option<int>
    var errorMessage: Option<string>
    var ready: bool
    var probing: bool
    /** Cleared by the effect's cleanup on unmount. */
    var mounted: bool
    const requiredPort: bool
    const timeout: int

    function View(): MonitorView
      reads this
    {
      MonitorView(status, pid, clientPort, uptime, errorMessage, ready, probing)
    }

    method SetView(v: MonitorView)
      modifies this
      ensures View() == v && mounted == old(mounted)
    {
      status, pid, clientPort, uptime := v.status, v.pid, v.clientPort, v.uptime;
      errorMessage, ready, probing := v.errorMessage, v.ready, v.probing;
    }

    /** The hook's initial state: status `unknown`, nothing known, not ready, mounted. */
    constructor (requiredPort: bool, timeout: int)
      ensures View() == InitialView && mounted
      ensures this.requiredPort == requiredPort && this.timeout == timeout
    {
      status, pid, clientPort, uptime := UnknownState, None, None, None;
      errorMessage, ready, probing := None, false, false;
      mounted := true;
      this.requiredPort := requiredPort;
      this.timeout := timeout;
    }

    /** `probe`: one status query and its effect on the exposed state. */
    method Probe(a: StatusAnswer) returns (ok: bool)
      modifies this
      ensures var p := ProbeEffect(old(View()), a, requiredPort, mounted);
        View() == p.view && ok == p.ok
      ensures mounted == old(mounted)
    {
      probing := true;
      if !mounted {
        return false;
      }
      if a.InvokeError? {
        status := ErrorState;
        errorMessage := Some(a.message);
        probing := false;
        return false;
      }
      var s := Fields(a);
      status := if s.state.Some? then s.state.value else UnknownState;
      pid := s.pid;
      clientPort := s.clientPort;
      uptime := s.uptimeSeconds;
      errorMessage := s.errorMessage;
      ok := IsReady(s.state, s.clientPort, requiredPort);
      if ok {
        ready := true;
      }
      probing := false;
    }

    /** The effect's run: the immediate probe, then the polling loop unless it succeeded. */
    method RunPolling(first: StatusAnswer, rounds: seq<PollRound>) returns (probes: nat)
      modifies this
      ensures var m := Monitoring(old(View()), first, rounds, requiredPort, timeout, old(mounted));
        View() == m.view && probes == m.probes && mounted == m.mounted
    {
      var ok := Probe(first);
      probes := 0;
      if !ok {
        probes := Poll(rounds);
      }
    }

    /** One round past the loop's check: the cleanup if it lands first, then the probe. */
    method ProbeRound(round: PollRound) returns (ok: bool)
      modifies this
      ensures var p := ProbeEffect(old(View()), round.answer, requiredPort, old(mounted) && !round.unmounted);
        View() == p.view && ok == p.ok
      ensures mounted == (old(mounted) && !round.unmounted)
    {
      if round.unmounted {
        Unmount();
      }
      ok := Probe(round.answer);
    }

    /**
     * The `while (polling)` loop over `rounds`; a round flagged `unmounted`
     * runs the cleanup after its check and before its answer.
     */
    method Poll(rounds: seq<PollRound>) returns (probes: nat)
      modifies this
      ensures var r := PollLoop(old(View()), rounds, requiredPort, timeout, old(mounted));
        View() == r.view && probes == r.probes && mounted == r.mounted
    {
      probes := 0;
      ghost var start, startMounted := View(), mounted;
      var i := 0;
      while i < |rounds|
        invariant 0 <= i <= |rounds| && probes == i
        invariant PollLoop(start, rounds, requiredPort, timeout, startMounted)
          == Shift(PollLoop(View(), rounds[i..], requiredPort, timeout, mounted), i)
      {
        if !mounted || (timeout > 0 && rounds[i].elapsedMs > timeout) {
          PollHalts(View(), rounds[i..], requiredPort, timeout, mounted);
          return;
        }
        PollStep(View(), rounds[i..], requiredPort, timeout);
        assert rounds[i..][1..] == rounds[i + 1..];
        var ok := ProbeRound(rounds[i]);
        probes := probes + 1;
        if ok {
          return;
        }
        i := i + 1;
      }
      PollHalts(View(), rounds[i..], requiredPort, timeout, mounted);
    }

    /** `refreshStatus`: one status query that also recomputes `ready`. */
    method RefreshStatus(a: StatusAnswer)
      modifies this
      ensures View() == RefreshEffect(old(View()), a, requiredPort, mounted)
      ensures mounted == old(mounted)
    {
      SetView(RefreshEffect(View(), a, requiredPort, mounted));
    }

    /** `startNode`: status `starting`, then `error` with the message if the command fails. */
    method StartNode(outcome: CommandOutcome) returns (ok: bool)
      modifies this
      ensures ok <==> outcome.CommandOk?
      ensures ok ==> View() == old(View()).(status := StartingState)
      ensures !ok ==> View() == old(View()).(status := ErrorState, errorMessage := Some(outcome.message))
      ensures mounted == old(mounted)
    {
      status := StartingState;
      if outcome.CommandFailed? {
        status := ErrorState;
        errorMessage := Some(outcome.message);
        return false;
      }
      return true;
    }

    /** `stopNode`: status `stopping`, then `error` with the message if the command fails. */
    method StopNode(outcome: CommandOutcome) returns (ok: bool)
      modifies this
      ensures ok <==> outcome.CommandOk?
      ensures ok ==> View() == old(View()).(status := StoppingState)
      ensures !ok ==> View() == old(View()).(status := ErrorState, errorMessage := Some(outcome.message))
      ensures mounted == old(mounted)
    {
      status := StoppingState;
      if outcome.CommandFailed? {
        status := ErrorState;
        errorMessage := Some(outcome.message);
        return false;
      }
      return true;
    }

    /** The effect's cleanup. */
    method Unmount()
      modifies this
      ensures View() == old(View()) && !mounted
    {
      mounted := false;
    }
  }
}
