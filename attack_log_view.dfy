/** The operation simulator's scripted attack scenarios: starting one (unless
    one is already playing) opens the result modal with two boot lines and
    schedules the scenario's lines 800 ms apart from 600 ms on, then the
    block verdict 400 ms after the last slot. The timers are explicit here:
    a list of pending timers in firing order, and a step that fires the
    next one. Log ids and timestamps come from the clock and are left out. */
module AttackLogView {
  import opened Base
  import opened Text

  datatype LogType = Attack | System | Blocked | Success

  /** One terminal line. */
  datatype Log = Log(ty: LogType, message: string, details: Option<string>)

  /** A scripted line of a scenario. */
  datatype ScriptLine = ScriptLine(ty: LogType, message: string, details: Option<string>)

  /** A scenario, reduced to what the run uses. */
  datatype Scenario = Scenario(id: string, title: string, reason: string, script: seq<ScriptLine>)

  /** What a timer does when it fires. */
  datatype TimerAction = Emit(line: ScriptLine) | Finish(scenario: Scenario)

  datatype Timer = Timer(at: int, action: TimerAction)

  const BOOT: seq<Log> := [Log(System, "BOOT_SEQUENCE: ADVERSARY_ENV_V2.0", None),
                           Log(System, "TARGET_GATEWAY: paylabs.api.production", None)]

  /** The first scenario line's delay, the spacing, and the verdict's lag. */
  const FIRST_DELAY: int := 600
  const STEP: int := 800
  const VERDICT_LAG: int := 400

  /** A scripted line as logged. */
  function AsLog(l: ScriptLine): Log {
    Log(l.ty, l.message, l.details)
  }

  /** The two verdict lines. */
  function Verdict(s: Scenario): seq<Log> {
    [Log(Blocked, "AEGIS_BLOCK: " + Upper(s.title), Some("Logic: " + s.reason)),
     Log(System, "GATEWAY_SIGNAL: TERMINATED", Some("Risk Score: 0.99 [CRITICAL]"))]
  }

  /** The timers `runScenario` sets, in the order they fire. */
  function Schedule(s: Scenario): (ts: seq<Timer>)
    ensures |ts| == |s.script| + 1
    ensures forall i :: 0 <= i < |s.script| ==> ts[i] == Timer(FIRST_DELAY + STEP * i, Emit(s.script[i]))
    ensures ts[|s.script|] == Timer(FIRST_DELAY + STEP * |s.script| + VERDICT_LAG, Finish(s))
  {
    seq(|s.script|, i requires 0 <= i < |s.script| => Timer(FIRST_DELAY + STEP * i, Emit(s.script[i])))
      + [Timer(FIRST_DELAY + STEP * |s.script| + VERDICT_LAG, Finish(s))]
  }

  /** The timers fire strictly one after another, in list order, and the
      verdict comes after every scripted line. */
  lemma ScheduleOrdered(s: Scenario)
    ensures forall i, j :: 0 <= i < j < |Schedule(s)| ==> Schedule(s)[i].at < Schedule(s)[j].at
    ensures forall i :: 0 <= i < |s.script| ==> Schedule(s)[i].at < Schedule(s)[|s.script|].at
    ensures Schedule(s)[|s.script|].action.Finish?
  {
    var ts := Schedule(s);
    var n := |s.script|;
    forall i, j | 0 <= i < j < |ts| ensures ts[i].at < ts[j].at {
      assert ts[i].at == FIRST_DELAY + STEP * i;
      if j < n {
        assert ts[j].at == FIRST_DELAY + STEP * j;
      }
    }
  }

  /** The lines a fired timer appends. */
  function Effect(a: TimerAction): seq<Log> {
    match a
    case Emit(l) => [AsLog(l)]
    case Finish(s) => Verdict(s)
  }

  /** The log after a run of timers fires in order. */
  function AfterAll(logs: seq<Log>, ts: seq<Timer>): seq<Log>
    decreases |ts|
  {
    if |ts| == 0 then logs else AfterAll(logs + Effect(ts[0].action), ts[1..])
  }

  /** The scripted lines of a scenario, as logged. */
  function ScriptLogs(script: seq<ScriptLine>): (r: seq<Log>)
    ensures |r| == |script|
    ensures forall i :: 0 <= i < |script| ==> r[i] == AsLog(script[i])
  {
    seq(|script|, i requires 0 <= i < |script| => AsLog(script[i]))
  }

  /** Firing a suffix of the scripted timers and then the verdict appends
      the remaining lines in order, then the verdict. */
  lemma {:induction false} AfterScript(logs: seq<Log>, s: Scenario, k: nat)
    requires k <= |s.script|
    ensures AfterAll(logs, Schedule(s)[k..]) == logs + ScriptLogs(s.script[k..]) + Verdict(s)
    decreases |s.script| - k
  {
    var ts := Schedule(s);
    if k == |s.script| {
      assert ts[k..] == [ts[k]];
      assert ts[k..][1..] == [];
      assert s.script[k..] == [];
    } else {
      assert ts[k..][0] == ts[k];
      assert ts[k..][1..] == ts[k + 1..];
      AfterScript(logs + [AsLog(s.script[k])], s, k + 1);
      assert ScriptLogs(s.script[k..]) == [AsLog(s.script[k])] + ScriptLogs(s.script[k + 1..]);
    }
  }

  /** The whole run: the two boot lines, the scenario's lines in order and
      the two verdict lines, `n + 4` in all. */
  lemma RunLog(s: Scenario)
    ensures AfterAll(BOOT, Schedule(s)) == BOOT + ScriptLogs(s.script) + Verdict(s)
    ensures |AfterAll(BOOT, Schedule(s))| == |s.script| + 4
  {
    AfterScript(BOOT, s, 0);
    assert Schedule(s)[0..] == Schedule(s);
    assert s.script[0..] == s.script;
  }

  /** `getLogStyle`. */
  function LogStyle(ty: LogType): string {
    match ty
    case Attack => "text-orange-400"
    case Blocked => "text-red-500 font-bold"
    case Success => "text-emerald-400 font-bold"
    case System => "text-zinc-500"
  }

  /** A line's text: the detection and probe markers before the message. */
  function LineText(l: Log): (t: string)
    ensures l.ty == Blocked ==> t == ">> [CRITICAL_DETECTION] " + l.message
    ensures l.ty == Success ==> t == ">> [PROBE_SUCCESS] " + l.message
    ensures l.ty == Attack || l.ty == System ==> t == l.message
  {
    (if l.ty == Blocked then ">> [CRITICAL_DETECTION] " else "")
      + (if l.ty == Success then ">> [PROBE_SUCCESS] " else "") + l.message
  }

  /** The view's state. */
  class LogView {
    var logs: seq<Log>
    var isSimulating: bool
    var selectedScenario: Option<Scenario>
    var showModal: bool
    /** Timers set and not yet fired, in firing order. */
    var pending: seq<Timer>

    constructor ()
      ensures logs == [] && !isSimulating && selectedScenario == None && !showModal && pending == []
    {
      logs, isSimulating, selectedScenario, showModal, pending := [], false, None, false, [];
    }

    /** `runScenario`: nothing while a scenario plays; otherwise select it,
        open the modal, restart the log with the boot lines and set the
        timers, advancing the delay by 800 ms per scripted line. */
    method RunScenario(s: Scenario)
      modifies this
      ensures old(isSimulating) ==> logs == old(logs) && isSimulating && selectedScenario == old(selectedScenario)
                                     && showModal == old(showModal) && pending == old(pending)
      ensures !old(isSimulating) ==> logs == BOOT && isSimulating && selectedScenario == Some(s) && showModal
                                      && pending == old(pending) + Schedule(s)
    {
      if isSimulating {
        return;
      }
      selectedScenario := Some(s);
      showModal := true;
      isSimulating := true;
      logs := [];
      logs := logs + [BOOT[0]];
      logs := logs + [BOOT[1]];
      assert logs == BOOT;
      var delay := FIRST_DELAY;
      var i := 0;
      ghost var base := pending;
      while i < |s.script|
        invariant 0 <= i <= |s.script|
        invariant delay == FIRST_DELAY + STEP * i
        invariant pending == base + Schedule(s)[..i]
        invariant logs == BOOT && isSimulating && selectedScenario == Some(s) && showModal
      {
        pending := pending + [Timer(delay, Emit(s.script[i]))];
        delay := delay + STEP;
        i := i + 1;
      }
      pending := pending + [Timer(delay + VERDICT_LAG, Finish(s))];
      assert Schedule(s) == Schedule(s)[..i] + [Schedule(s)[i]];
    }

    /** The earliest pending timer fires: its lines are appended, and the
        verdict ends the simulation. */
    method Fire()
      requires |pending| > 0
      modifies this
      ensures logs == old(logs) + Effect(old(pending[0]).action)
      ensures pending == old(pending[1..])
      ensures isSimulating == (old(isSimulating) && !old(pending[0]).action.Finish?)
      ensures selectedScenario == old(selectedScenario) && showModal == old(showModal)
    {
      var t := pending[0];
      pending := pending[1..];
      match t.action
      case Emit(l) =>
        logs := logs + [AsLog(l)];
      case Finish(s) =>
        logs := logs + [Verdict(s)[0]];
        logs := logs + [Verdict(s)[1]];
        isSimulating := false;
    }

    /** The close button only hides the modal. */
    method CloseModal()
      modifies this
      ensures !showModal
      ensures logs == old(logs) && isSimulating == old(isSimulating) && selectedScenario == old(selectedScenario)
      ensures pending == old(pending)
    {
      showModal := false;
    }

    /** The modal renders only when open with a scenario. */
    predicate ModalShown()
      reads this
    {
      showModal && selectedScenario.Some?
    }

    /** Inside the modal: the "analyzing" line while playing, the verdict
        footer after. */
    predicate AnalyzingShown()
      reads this
    {
      ModalShown() && isSimulating
    }

    predicate FooterShown()
      reads this
    {
      ModalShown() && !isSimulating
    }
  }

  /** The analyzing line and the footer never show together, and a closed
      modal shows neither. */
  lemma FooterExclusive(v: LogView)
    ensures !(v.AnalyzingShown() && v.FooterShown())
    ensures !v.showModal ==> !v.AnalyzingShown() && !v.FooterShown()
  {
  }
}
