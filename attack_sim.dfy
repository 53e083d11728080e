/** The attack simulator page: the run configuration, the state the
    streaming socket's open/message/error/close callbacks write (running and
    completed flags, statistics, progress, the live feed and the capped
    event log with its id counter), stopping a run, browsing past runs, and
    the derived progress percentage, per-type detection rate and the
    statistics on display. The socket itself is the events passed in. */
module AttackSimulator {
  import opened Base
  import opened Text

  /** The detection statistics a run reports (`LiveStats`); a past run
      carries the same figures, and its two per-type maps may be null. */
  datatype LiveStats = LiveStats(
    total: int, approved: int, flagged: int,
    tp: int, fp: int, tn: int, fn: int,
    recall: real, precision: real, f1: real, fpr: real, roi_saved: real,
    per_type: Option<map<string, int>>, per_type_total: Option<map<string, int>>)

  /** One scored transaction of the live feed. */
  datatype FeedTxn = FeedTxn(txn_id: string, merchant: string, risk_score: Option<real>,
                             is_fraud: bool, is_flagged: bool, fraud_type: Option<string>)

  /** One line of the event log. */
  datatype LogEntry = LogEntry(id: nat, level: string, text: string)

  /** A message from the socket. */
  datatype AttackEvent =
    | TransactionEvent(txn: FeedTxn)
    | StatsUpdate(stats: LiveStats)
    | AttackStart(startTotal: int, fraud: int)
    | AttackEnd(finalStats: LiveStats)
    | LogEvent(level: Option<string>, text: Option<string>)

  datatype Speed = Slow | Normal | Fast

  /** The fraud ratios the four preset buttons offer. */
  const FRAUD_PRESETS: seq<real> := [0.05, 0.15, 0.3, 0.5]

  /** The largest number of older entries kept when a line is logged. */
  const LOG_KEEP: nat := 300

  /** The feed's length cap. */
  const FEED_CAP: nat := 100

  /** `prev.slice(-300)`: the newest 300 entries, or all of a shorter log. */
  function KeepNewest(logs: seq<LogEntry>): (r: seq<LogEntry>)
    ensures |r| == Min(|logs|, LOG_KEEP)
    ensures r == logs[|logs| - |r|..]
  {
    if |logs| > LOG_KEEP then logs[|logs| - LOG_KEEP..] else logs
  }

  /** Every id is below `next`, and ids increase along the log. */
  predicate IdsBelow(logs: seq<LogEntry>, next: nat) {
    (forall i, j :: 0 <= i < j < |logs| ==> logs[i].id < logs[j].id)
    && (forall i :: 0 <= i < |logs| ==> logs[i].id < next)
  }

  /** Logging keeps at most 301 lines with increasing ids, the new line
      last, whatever the log held before. */
  lemma LoggedKeepsIds(logs: seq<LogEntry>, next: nat, level: string, text: string)
    requires IdsBelow(logs, next)
    ensures IdsBelow(KeepNewest(logs) + [LogEntry(next, level, text)], next + 1)
    ensures |KeepNewest(logs) + [LogEntry(next, level, text)]| <= LOG_KEEP + 1
  {
    var kept := KeepNewest(logs);
    var e := LogEntry(next, level, text);
    var r := kept + [e];
    var d := |logs| - |kept|;
    forall i | 0 <= i < |r| ensures r[i].id < next + 1 && (i < |kept| ==> r[i] == logs[d + i]) {
      if i < |kept| {
        assert r[i] == logs[d + i];
      }
    }
    forall i, j | 0 <= i < j < |r| ensures r[i].id < r[j].id {
      if j < |kept| {
        assert r[i] == logs[d + i] && r[j] == logs[d + j];
      }
    }
  }

  /** `(event.level || 'info')` and `(event.text || '')`. */
  function OrDefault(s: Option<string>, default: string): (r: string)
    ensures s.Some? && s.value != "" ==> r == s.value
    ensures s.None? || s.value == "" ==> r == default
  {
    if s.Some? && s.value != "" then s.value else default
  }

  /** The line logged when the server starts the simulation. */
  function StartedText(total: int, fraud: int): string {
    "Simulation started: " + IntToString(total) + " total, " + IntToString(fraud) + " adversarial"
  }

  /** `pctDone`: the share of the configured transactions seen, as a
      percentage capped at 100, and 0 before any total is set. */
  function PctDone(progress: int, total: int): (pct: real)
    ensures total <= 0 ==> pct == 0.0
    ensures total > 0 && progress >= 0 ==> 0.0 <= pct <= 100.0
    ensures total > 0 && 0 <= progress <= total ==> pct == progress as real / total as real * 100.0
    ensures total > 0 && progress >= total ==> pct == 100.0
  {
    if total > 0 then
      var share := progress as real / total as real * 100.0;
      if share < 100.0 then share else 100.0
    else 0.0
  }

  /** More progress never shows a smaller percentage. */
  lemma PctDoneMonotone(p: int, q: int, total: int)
    requires p <= q
    ensures PctDone(p, total) <= PctDone(q, total)
  {
    if total > 0 {
      assert p as real / total as real <= q as real / total as real;
    }
  }
  /** A run with a positive total shows 100% exactly when the progress has
      reached the total. */
  lemma PctDoneFull(progress: int, total: int)
    requires 0 <= progress && 0 < total
    ensures PctDone(progress, total) == 100.0 <==> progress >= total
  {
    if progress < total {
      assert progress as real / total as real * total as real == progress as real;
      assert progress as real / total as real < 1.0;
    }
  }


  /** The detection rate of one fraud type, in percent; 0 when none of
      that type was sent. */
  function TypeRate(detected: int, typeTotal: int): (rate: real)
    ensures typeTotal <= 0 ==> rate == 0.0
    ensures typeTotal > 0 && 0 <= detected <= typeTotal ==> 0.0 <= rate <= 100.0
    ensures typeTotal > 0 && detected == typeTotal ==> rate == 100.0
  {
    if typeTotal > 0 then detected as real / typeTotal as real * 100.0 else 0.0
  }

  /** One row of the per-type breakdown: `[type, totalCount]` of the
      denominator map (`per_type_total ?? per_type`) with the caught count
      from `per_type`, defaulting to 0. */
  datatype TypeRow = TypeRow(fraudType: string, detected: int, typeTotal: int, rate: real)

  /** The map the breakdown iterates: totals when present, else the
      caught counts themselves. */
  function Denominators(s: LiveStats): map<string, int> {
    if s.per_type_total.Some? then s.per_type_total.value
    else if s.per_type.Some? then s.per_type.value
    else map[]
  }

  function RowOf(s: LiveStats, fraudType: string): (row: TypeRow)
    requires fraudType in Denominators(s)
    ensures row.typeTotal == Denominators(s)[fraudType]
    ensures row.detected == if s.per_type.Some? && fraudType in s.per_type.value then s.per_type.value[fraudType] else 0
    ensures row.rate == TypeRate(row.detected, row.typeTotal)
  {
    var detected := if s.per_type.Some? && fraudType in s.per_type.value then s.per_type.value[fraudType] else 0;
    var typeTotal := Denominators(s)[fraudType];
    TypeRow(fraudType, detected, typeTotal, TypeRate(detected, typeTotal))
  }

  /** Without totals, every listed type's rate is 100% or, for an empty
      type, 0: the caught counts are divided by themselves. */
  lemma RatesWithoutTotals(s: LiveStats, fraudType: string)
    requires s.per_type_total.None? && s.per_type.Some? && fraudType in s.per_type.value
    ensures RowOf(s, fraudType).rate == if s.per_type.value[fraudType] > 0 then 100.0 else 0.0
  {
  }

  /** The breakdown is drawn when the shown statistics have a non-empty
      caught-count map. */
  predicate BreakdownShown(shown: Option<LiveStats>) {
    shown.Some? && shown.value.per_type.Some? && |shown.value.per_type.value| > 0
  }

  /** `displayStats`: a selected past run outranks the live figures. */
  function DisplayStats(selectedRun: Option<LiveStats>, stats: Option<LiveStats>): (shown: Option<LiveStats>)
    ensures selectedRun.Some? ==> shown == selectedRun
    ensures selectedRun.None? ==> shown == stats
  {
    if selectedRun.Some? then selectedRun else stats
  }

  /** A counter as displayed: `displayStats?.x ?? 0`. */
  function ShownCount(shown: Option<LiveStats>, pick: LiveStats -> int): (n: int)
    ensures shown.None? ==> n == 0
    ensures shown.Some? ==> n == pick(shown.value)
  {
    if shown.Some? then pick(shown.value) else 0
  }

  /** Everything the page holds. */
  datatype SimState = SimState(
    total: int, fraudPct: real, speed: Speed,
    running: bool, completed: bool, stats: Option<LiveStats>, progress: int,
    logs: seq<LogEntry>, recentTxns: seq<FeedTxn>,
    showHistory: bool, selectedRun: Option<LiveStats>, elapsed: int,
    nextLogId: nat, launchTotal: int)

  /** The log is capped with increasing ids below the counter, the feed is
      capped, and the configured total and the total of the last launch
      are ones the slider offers. */
  predicate ValidState(st: SimState) {
    |st.logs| <= LOG_KEEP + 1 && IdsBelow(st.logs, st.nextLogId)
    && |st.recentTxns| <= FEED_CAP
    && 50 <= st.total <= 2000 && st.progress >= 0
    && 50 <= st.launchTotal <= 2000
  }

  /** The initial configuration: 200 transactions, 15% fraud, fast. */
  const INITIAL: SimState := SimState(200, 0.15, Fast, false, false, None, 0, [], [], false, None, 0, 0, 200)

  /** `addLog`: keep the newest 300 lines, append one with the next id. */
  function WithLog(st: SimState, level: string, text: string): SimState {
    st.(logs := KeepNewest(st.logs) + [LogEntry(st.nextLogId, level, text)], nextLogId := st.nextLogId + 1)
  }

  /** The eight setters `onopen` calls before logging: a live, empty run
      that keeps the configuration, the history toggle and the log counter. */
  function Restarted(st: SimState): SimState {
    SimState(st.total, st.fraudPct, st.speed, true, false, None, 0, [], [], st.showHistory, None, 0, st.nextLogId, st.launchTotal)
  }

  /** `handleStart`, the Launch click. The socket's handlers are closures
      over the configuration of that render, so the total they read is the
      one of the click, whatever the slider shows when they run. */
  function Launched(st: SimState): SimState {
    st.(launchTotal := st.total)
  }

  /** `onopen`: reset the run and log the launch line. */
  function Opened(st: SimState, launchText: string): SimState {
    WithLog(Restarted(st), "info", launchText)
  }

  /** `onmessage` on one event. */
  function Received(st: SimState, ev: AttackEvent, endText: string): SimState {
    match ev
    case TransactionEvent(txn) =>
      st.(recentTxns := [txn] + st.recentTxns[..Min(|st.recentTxns|, FEED_CAP - 1)], progress := st.progress + 1)
    case StatsUpdate(s) => st.(stats := Some(s))
    case AttackStart(t, f) => WithLog(st, "info", StartedText(t, f))
    case AttackEnd(s) =>
      WithLog(st.(stats := Some(s), progress := st.launchTotal, running := false, completed := true), "info", endText)
    case LogEvent(level, text) => WithLog(st, OrDefault(level, "info"), OrDefault(text, ""))
  }

  const SOCKET_ERROR: string := "WebSocket error — is the API running?"

  /** `onerror`: log the failure and stop. */
  function Errored(st: SimState): SimState {
    WithLog(st, "error", SOCKET_ERROR).(running := false)
  }

  /** `handleStop`: stop and log one warning. */
  function Stopped(st: SimState): SimState {
    WithLog(st.(running := false), "warn", "Stopped by user")
  }

  /** Logging keeps the state valid, adds the line last with a fresh id,
      and touches nothing but the log and the counter. */
  lemma WithLogValid(st: SimState, level: string, text: string)
    requires ValidState(st)
    ensures ValidState(WithLog(st, level, text))
    ensures var l := WithLog(st, level, text).logs; l[|l| - 1] == LogEntry(st.nextLogId, level, text)
    ensures WithLog(st, level, text).(logs := st.logs, nextLogId := st.nextLogId) == st
  {
    LoggedKeepsIds(st.logs, st.nextLogId, level, text);
  }

  /** After `onopen` the run is live and empty, and the log holds exactly
      the launch line. */
  lemma OpenedResets(st: SimState, launchText: string)
    requires ValidState(st)
    ensures var o := Opened(st, launchText);
      ValidState(o) && o.running && !o.completed && o.stats.None? && o.progress == 0
      && o.recentTxns == [] && o.elapsed == 0 && o.selectedRun.None?
      && o.logs == [LogEntry(st.nextLogId, "info", launchText)]
  {
    var r := Restarted(st);
    assert KeepNewest(r.logs) == [];
    WithLogValid(r, "info", launchText);
  }

  /** Every event keeps the state valid: the feed holds at most 100
      transactions and the log at most 301 lines with increasing ids. A
      transaction adds one to progress and puts itself first in the feed.
      The end of the attack completes the run with the launch's total as
      progress, which shows as 100% exactly when the slider has not been
      raised since the launch. */
  lemma ReceivedValid(st: SimState, ev: AttackEvent, endText: string)
    requires ValidState(st)
    ensures ValidState(Received(st, ev, endText))
    ensures ev.TransactionEvent? ==> Received(st, ev, endText).progress == st.progress + 1
                                     && Received(st, ev, endText).recentTxns[0] == ev.txn
    ensures ev.StatsUpdate? ==> Received(st, ev, endText) == st.(stats := Some(ev.stats))
    ensures ev.AttackEnd? ==> var e := Received(st, ev, endText);
      !e.running && e.completed && e.stats == Some(ev.finalStats) && e.progress == st.launchTotal
      && e.total == st.total && (PctDone(e.progress, e.total) == 100.0 <==> st.launchTotal >= st.total)
  {
    match ev
    case TransactionEvent(txn) =>
    case StatsUpdate(s) =>
    case AttackStart(t, f) => WithLogValid(st, "info", StartedText(t, f));
    case AttackEnd(s) =>
      WithLogValid(st.(stats := Some(s), progress := st.launchTotal, running := false, completed := true), "info", endText);
      PctDoneFull(st.launchTotal, st.total);
    case LogEvent(level, text) => WithLogValid(st, OrDefault(level, "info"), OrDefault(text, ""));
  }

  /** Stopping or a socket error keeps the state valid, ends the run and
      appends exactly one line. */
  lemma StopAndErrorValid(st: SimState)
    requires ValidState(st)
    ensures ValidState(Stopped(st)) && !Stopped(st).running && |Stopped(st).logs| == Min(|st.logs|, LOG_KEEP) + 1
    ensures ValidState(Errored(st)) && !Errored(st).running && |Errored(st).logs| == Min(|st.logs|, LOG_KEEP) + 1
  {
    WithLogValid(st.(running := false), "warn", "Stopped by user");
    WithLogValid(st, "error", SOCKET_ERROR);
  }

  /** The slider stays enabled until the socket opens. A total changed
      between the Launch click and the open does not reach the handlers:
      the run ends with the launch's total as progress, against the new
      total on screen. */
  lemma SliderMovedBeforeOpen(st: SimState, n: int, s: LiveStats, launchText: string, endText: string)
    requires ValidState(st) && 50 <= n <= 2000
    ensures var e := Received(Opened(Launched(st).(total := n), launchText), AttackEnd(s), endText);
      e.progress == st.total && e.total == n && (PctDone(e.progress, e.total) == 100.0 <==> st.total >= n)
  {
    var o := Opened(Launched(st).(total := n), launchText);
    OpenedResets(Launched(st).(total := n), launchText);
    ReceivedValid(o, AttackEnd(s), endText);
  }

  /** Launched at 200, raised to 500 before the open: the run ends at
      200 of 500, 40%. */
  lemma LaunchAt200EndsAt40Percent(s: LiveStats)
    ensures var e := Received(Opened(Launched(INITIAL).(total := 500), "launch"), AttackEnd(s), "done");
      e.progress == 200 && e.total == 500 && PctDone(e.progress, e.total) == 40.0
  {
    SliderMovedBeforeOpen(INITIAL, 500, s, "launch", "done");
  }

  /** The page's state, field by field. */
  class Simulator {
    var total: int
    var fraudPct: real
    var speed: Speed
    var running: bool
    var completed: bool
    var stats: Option<LiveStats>
    var progress: int
    var logs: seq<LogEntry>
    var recentTxns: seq<FeedTxn>
    var showHistory: bool
    var selectedRun: Option<LiveStats>
    var elapsed: int
    /** `logIdRef`: the id the next log line gets. */
    var nextLogId: nat
    /** The total the live socket's handlers captured at the Launch click. */
    var launchTotal: int

    function Snapshot(): SimState
      reads this
    {
      SimState(total, fraudPct, speed, running, completed, stats, progress, logs, recentTxns,
               showHistory, selectedRun, elapsed, nextLogId, launchTotal)
    }

    constructor ()
      ensures Snapshot() == INITIAL && ValidState(Snapshot())
    {
      total, fraudPct, speed := 200, 0.15, Fast;
      running, completed, stats, progress := false, false, None, 0;
      logs, recentTxns, showHistory, selectedRun := [], [], false, None;
      elapsed, nextLogId, launchTotal := 0, 0, 200;
    }

    method AddLog(level: string, text: string)
      modifies this
      ensures Snapshot() == WithLog(old(Snapshot()), level, text)
    {
      logs := KeepNewest(logs) + [LogEntry(nextLogId, level, text)];
      nextLogId := nextLogId + 1;
    }

    /** The transactions slider (50 to 2000). */
    method SetTotal(n: int)
      requires 50 <= n <= 2000
      modifies this
      ensures Snapshot() == old(Snapshot()).(total := n)
    {
      total := n;
    }

    /** A fraud-ratio preset button. */
    method SetFraudPct(p: real)
      requires p in FRAUD_PRESETS
      modifies this
      ensures Snapshot() == old(Snapshot()).(fraudPct := p)
    {
      fraudPct := p;
    }

    /** A speed button. */
    method SetSpeed(sp: Speed)
      modifies this
      ensures Snapshot() == old(Snapshot()).(speed := sp)
    {
      speed := sp;
    }

    /** The Launch click: opens the socket whose handlers keep the current
        configuration. */
    method Launch()
      modifies this
      ensures Snapshot() == Launched(old(Snapshot()))
    {
      launchTotal := total;
    }

    /** The eight setters `onopen` calls before logging. */
    method ResetRun()
      modifies this
      ensures Snapshot() == Restarted(old(Snapshot()))
    {
      ResetProgress();
      ResetFeed();
    }

    /** The first half of the reset: the run flags and counters. */
    method ResetProgress()
      modifies this
      ensures Snapshot() == old(Snapshot()).(running := true, completed := false, stats := None, progress := 0)
    {
      running, completed, stats, progress := true, false, None, 0;
    }

    /** The second half of the reset: the lines, the feed, the clock and
        the history selection. */
    method ResetFeed()
      modifies this
      ensures Snapshot() == old(Snapshot()).(logs := [], recentTxns := [], elapsed := 0, selectedRun := None)
    {
      logs, recentTxns, elapsed, selectedRun := [], [], 0, None;
    }

    method Open(launchText: string)
      modifies this
      ensures Snapshot() == Opened(old(Snapshot()), launchText)
    {
      ResetRun();
      AddLog("info", launchText);
    }

    /** The completion line formats reals and is passed in as `endText`. */
    method OnMessage(ev: AttackEvent, endText: string)
      modifies this
      ensures Snapshot() == Received(old(Snapshot()), ev, endText)
    {
      match ev
      case TransactionEvent(txn) =>
        recentTxns := [txn] + recentTxns[..Min(|recentTxns|, FEED_CAP - 1)];
        progress := progress + 1;
      case StatsUpdate(s) =>
        stats := Some(s);
      case AttackStart(t, f) =>
        AddLog("info", StartedText(t, f));
      case AttackEnd(s) =>
        ghost var before := Snapshot();
        stats, progress, running, completed := Some(s), launchTotal, false, true;
        assert Snapshot() == before.(stats := Some(s), progress := before.launchTotal, running := false, completed := true);
        AddLog("info", endText);
      case LogEvent(level, text) =>
        AddLog(OrDefault(level, "info"), OrDefault(text, ""));
    }

    method OnError()
      modifies this
      ensures Snapshot() == Errored(old(Snapshot()))
    {
      AddLog("error", SOCKET_ERROR);
      running := false;
    }

    /** `onclose`. */
    method OnClose()
      modifies this
      ensures Snapshot() == old(Snapshot()).(running := false)
    {
      running := false;
    }

    method Stop()
      modifies this
      ensures Snapshot() == Stopped(old(Snapshot()))
    {
      ghost var before := Snapshot();
      running := false;
      assert Snapshot() == before.(running := false);
      AddLog("warn", "Stopped by user");
    }

    /** The one-second timer while running: the whole seconds since the
        run started. */
    method Tick(secondsSinceStart: nat)
      requires running
      modifies this
      ensures Snapshot() == old(Snapshot()).(elapsed := secondsSinceStart)
    {
      elapsed := secondsSinceStart;
    }

    /** `viewRun`: show a past run's figures and close the history list. */
    method ViewRun(run: LiveStats)
      modifies this
      ensures Snapshot() == old(Snapshot()).(selectedRun := Some(run), showHistory := false)
    {
      selectedRun := Some(run);
      showHistory := false;
    }

    /** "Back to Live". */
    method BackToLive()
      modifies this
      ensures Snapshot() == old(Snapshot()).(selectedRun := None)
    {
      selectedRun := None;
    }

    /** The history toggle. */
    method ToggleHistory()
      modifies this
      ensures Snapshot() == old(Snapshot()).(showHistory := !old(showHistory))
    {
      showHistory := !showHistory;
    }
  }

  /** A completed run shows full progress, and while a past run is
      selected the live figures are hidden whatever the socket sends. */
  lemma SelectedRunHidesLive(st: SimState, ev: AttackEvent, endText: string)
    requires st.selectedRun.Some?
    ensures DisplayStats(Received(st, ev, endText).selectedRun, Received(st, ev, endText).stats) == st.selectedRun
  {
  }
}
