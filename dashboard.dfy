/** The dashboard's state: the alarm classification of each incoming
    reading, the deduplication of alarm log lines through `alarm_states`,
    the plot histories capped at 100 points, the log clearing, the
    maintenance-console lock, and the remote-command log. Widgets, colours
    and plots themselves are not modelled; the histories they are drawn
    from are. */
module Dashboard {
  import opened Json
  import opened SensorConfig
  import opened Notifications
  import CommThread
  import Simulator

  /** `history_len`: the `maxlen` of each plot deque. */
  const HistoryLen: nat := 100

  const AdminPassword: string := "admin123"

  /** One `(sid, reading)` pair of the data dictionary, with the fields the
      dashboard reads: `value` and `status`. */
  datatype Entry = Entry(sid: string, value: real, status: string)

  /** `SENSOR_CONFIG[sid]`, when `sid` is a key. */
  function Lookup(cfg: seq<SensorDef>, sid: string): (r: Option<SensorDef>)
    ensures r.Some? <==> sid in IdsOf(cfg)
    ensures r.Some? ==> r.value in cfg && r.value.id == sid
  {
    if cfg == [] then None
    else if cfg[0].id == sid then Some(cfg[0])
    else
      assert IdsOf(cfg) == {cfg[0].id} + IdsOf(cfg[1..]);
      Lookup(cfg[1..], sid)
  }

  function IdsOf(cfg: seq<SensorDef>): set<string> {
    set d | d in cfg :: d.id
  }

  // ---------------------------------------------------------------------
  // Classification
  // ---------------------------------------------------------------------

  datatype AlarmKind = FaultAlarm | LimitAlarm

  /** The alarm raised for a reading: its kind and the message recorded in
      `alarm_states`. */
  datatype Alarm = Alarm(kind: AlarmKind, text: string)

  /** The classification of a reading against its sensor's limits. A status
      other than "OK" wins over the limits, the low limit is tested before
      the high one, and a fault message carries " (under fixation)".
      `show` stands for Python's `str` on the value and the limits. */
  function AlarmFor(d: SensorDef, value: real, status: string, show: real -> string): (r: Option<Alarm>)
    ensures r.None? <==> status == "OK" && d.low <= value <= d.high
    ensures r.Some? ==> (r.value.kind == FaultAlarm <==> status != "OK")
  {
    if status != "OK" then Some(Alarm(FaultAlarm, "FAULT: " + status + " (under fixation)"))
    else if value < d.low then Some(Alarm(LimitAlarm, "LOW LIMIT: " + show(value) + " < " + show(d.low)))
    else if value > d.high then Some(Alarm(LimitAlarm, "HIGH LIMIT: " + show(value) + " > " + show(d.high)))
    else None
  }

  /** A fault message and a limit message are never equal, so a sensor
      that turns from one to the other is logged again. */
  lemma AlarmTextsDistinguishKinds(d: SensorDef, v1: real, s1: string, v2: real, s2: string, show: real -> string)
    requires AlarmFor(d, v1, s1, show).Some? && AlarmFor(d, v2, s2, show).Some?
    requires AlarmFor(d, v1, s1, show).value.kind != AlarmFor(d, v2, s2, show).value.kind
    ensures AlarmFor(d, v1, s1, show).value.text != AlarmFor(d, v2, s2, show).value.text
  {
    assert AlarmFor(d, v1, s1, show).value.text[0] != AlarmFor(d, v2, s2, show).value.text[0];
  }

  /** Below the low limit with status "OK" is a low-limit alarm; a faulty
      status is a fault alarm whatever the value. */
  lemma AlarmCases(d: SensorDef, value: real, status: string, show: real -> string)
    ensures status != "OK" ==> AlarmFor(d, value, status, show) == Some(Alarm(FaultAlarm, "FAULT: " + status + " (under fixation)"))
    ensures status == "OK" && value < d.low ==>
              AlarmFor(d, value, status, show) == Some(Alarm(LimitAlarm, "LOW LIMIT: " + show(value) + " < " + show(d.low)))
    ensures status == "OK" && d.low <= value && value > d.high ==>
              AlarmFor(d, value, status, show) == Some(Alarm(LimitAlarm, "HIGH LIMIT: " + show(value) + " > " + show(d.high)))
  {
  }

  /** A spike the simulator emits reaches the dashboard as an OK reading
      out of limits, so it raises a LIMIT alarm: HIGH for an upward spike,
      LOW for a downward one. */
  lemma SpikeRaisesLimitAlarm(d: SensorDef, p: SimParams, cur: real, r: Simulator.Draw, now: real, show: real -> string)
    requires WellFormedDef(d)
    requires p.faultProb <= r.check < p.faultProb + p.spikeProb
    ensures var st := Simulator.StepSensor(d, p, cur, None, r, now);
            var a := AlarmFor(d, st.reading.value, Simulator.StatusText(st.reading.status), show);
            a.Some? && a.value.kind == LimitAlarm
            && (r.coin ==> a.value.text == "HIGH LIMIT: " + show(st.reading.value) + " > " + show(d.high))
            && (!r.coin ==> a.value.text == "LOW LIMIT: " + show(st.reading.value) + " < " + show(d.low))
  {
    var st := Simulator.StepSensor(d, p, cur, None, r, now);
    Simulator.SpikeOutOfLimits(d);
    AlarmCases(d, st.reading.value, Simulator.StatusText(st.reading.status), show);
  }

  // ---------------------------------------------------------------------
  // Bounded histories
  // ---------------------------------------------------------------------

  /** `deque(maxlen=100).append(v)`: a full deque drops its oldest point. */
  function Push(h: seq<real>, v: real): (r: seq<real>)
    requires |h| <= HistoryLen
    ensures |r| <= HistoryLen && |r| > 0 && r[|r| - 1] == v
  {
    if |h| == HistoryLen then h[1..] + [v] else h + [v]
  }

  /** The last `n` elements of `s` (all of them when there are fewer). */
  function LastN(s: seq<real>, n: nat): (r: seq<real>)
    ensures |r| <= n && |r| <= |s|
  {
    if |s| <= n then s else s[|s| - n..]
  }

  /** The deque after appending each of `vs` in turn. */
  function PushAll(h: seq<real>, vs: seq<real>): (r: seq<real>)
    requires |h| <= HistoryLen
    ensures |r| <= HistoryLen
    decreases |vs|
  {
    if vs == [] then h else PushAll(Push(h, vs[0]), vs[1..])
  }

  /** A history always holds exactly the most recent points appended, up to
      100 of them, oldest first. */
  lemma {:induction false} PushAllKeepsLatest(h: seq<real>, vs: seq<real>)
    requires |h| <= HistoryLen
    ensures PushAll(h, vs) == LastN(h + vs, HistoryLen)
    decreases |vs|
  {
    if vs == [] {
      assert h + vs == h;
    } else {
      var h' := Push(h, vs[0]);
      PushAllKeepsLatest(h', vs[1..]);
      var x := h + [vs[0]];
      assert h' == LastN(x, HistoryLen);
      assert h + vs == x + vs[1..];
      LastNOfLastN(x, vs[1..]);
    }
  }

  lemma LastNOfLastN(x: seq<real>, y: seq<real>)
    ensures LastN(LastN(x, HistoryLen) + y, HistoryLen) == LastN(x + y, HistoryLen)
  {
    if |x| > HistoryLen {
      var t := x[|x| - HistoryLen..];
      assert (t + y)[|t + y| - HistoryLen..] == (x + y)[|x + y| - HistoryLen..] || |t + y| <= HistoryLen;
      if |y| < HistoryLen {
        assert (t + y)[|t + y| - HistoryLen..] == (x + y)[|x + y| - HistoryLen..];
      } else {
        assert (t + y)[|t + y| - HistoryLen..] == y[|y| - HistoryLen..];
        assert (x + y)[|x + y| - HistoryLen..] == y[|y| - HistoryLen..];
      }
    }
  }

  // ---------------------------------------------------------------------
  // One reading: `update_data`'s loop body
  // ---------------------------------------------------------------------

  /** What the dashboard keeps per reading: the recorded alarm messages, the
      value and time histories, and the fault and limit logs. */
  datatype Panel = Panel(
    alarms: map<string, string>,
    data: map<string, seq<real>>,
    times: map<string, seq<real>>,
    faultLog: seq<string>,
    limitLog: seq<string>)

  /** A call of `send_alert(sid, name, message, level)`. */
  datatype Request = Request(sid: string, name: string, message: string, level: string)

  /** One value history and one time history per configured sensor, none
      over its cap, and the two of equal length: they are appended in
      lockstep. */
  predicate Histories(cfg: seq<SensorDef>, p: Panel) {
    forall sid :: sid in IdsOf(cfg) ==>
      sid in p.data && sid in p.times && |p.data[sid]| <= HistoryLen && |p.times[sid]| == |p.data[sid]|
  }

  /** `f"[{t_str}] {name} ({sid}) - {alarm_msg}"`. */
  function LogEntry(clock: string, name: string, sid: string, text: string): string {
    "[" + clock + "] " + name + " (" + sid + ") - " + text
  }

  /** The alarm bookkeeping after one reading: the records, both logs, and
      the alert to send, if any. */
  datatype AlarmOutcome = AlarmOutcome(alarms: map<string, string>, faultLog: seq<string>, limitLog: seq<string>, request: Option<Request>)

  /** The deduplication step for sensor `sid` named `name`: an alarm whose
      message differs from the recorded one is logged on the log of its
      kind, alerted and recorded; a repeated one changes nothing; a normal
      reading clears the record. */
  function Dedup(alarms: map<string, string>, faultLog: seq<string>, limitLog: seq<string>,
                 sid: string, name: string, alarm: Option<Alarm>, status: string, value: real,
                 clock: string, show: real -> string): AlarmOutcome
  {
    match alarm
    case None => AlarmOutcome(alarms - {sid}, faultLog, limitLog, None)
    case Some(a) =>
      if sid in alarms && alarms[sid] == a.text then AlarmOutcome(alarms, faultLog, limitLog, None)
      else
        var entry := LogEntry(clock, name, sid, a.text);
        if a.kind == FaultAlarm then
          AlarmOutcome(alarms[sid := a.text], faultLog + [entry], limitLog,
                       Some(Request(sid, name, "Sensor Fault detected: " + status, "FAULT")))
        else
          AlarmOutcome(alarms[sid := a.text], faultLog, limitLog + [entry],
                       Some(Request(sid, name, "Limit Exceeded: " + show(value), "LIMIT")))
  }

  datatype Observed = Observed(panel: Panel, request: Option<Request>)

  /** One `(sid, reading)` pair. An unconfigured id is ignored. Otherwise
      the value and `timeRel` are appended to the sensor's histories and
      the alarm goes through `Dedup`. `clock` is the `%H:%M:%S` wall-clock
      text. */
  function Observe(cfg: seq<SensorDef>, p: Panel, e: Entry, timeRel: real, clock: string, show: real -> string): (r: Observed)
    requires Histories(cfg, p)
    ensures Histories(cfg, r.panel)
  {
    match Lookup(cfg, e.sid)
    case None => Observed(p, None)
    case Some(d) =>
      var o := Dedup(p.alarms, p.faultLog, p.limitLog, e.sid, d.name, AlarmFor(d, e.value, e.status, show), e.status, e.value, clock, show);
      Observed(Panel(o.alarms, p.data[e.sid := Push(p.data[e.sid], e.value)], p.times[e.sid := Push(p.times[e.sid], timeRel)],
                     o.faultLog, o.limitLog),
               o.request)
  }

  /** Readings for ids outside the configuration change nothing. */
  lemma UnknownSensorIgnored(cfg: seq<SensorDef>, p: Panel, e: Entry, timeRel: real, clock: string, show: real -> string)
    requires Histories(cfg, p)
    requires e.sid !in IdsOf(cfg)
    ensures Observe(cfg, p, e, timeRel, clock, show) == Observed(p, None)
  {
  }

  /** For a configured sensor: the histories grow by this point, other
      sensors are untouched, the record holds the alarm message (or is
      cleared), and a line is logged and an alert requested exactly when
      the alarm message differs from the one recorded before, on the log of
      its kind and with the matching level. */
  lemma ObserveKnown(cfg: seq<SensorDef>, p: Panel, e: Entry, timeRel: real, clock: string, show: real -> string)
    requires Histories(cfg, p)
    requires e.sid in IdsOf(cfg)
    ensures var r := Observe(cfg, p, e, timeRel, clock, show).panel;
            var q := Observe(cfg, p, e, timeRel, clock, show).request;
            var d := Lookup(cfg, e.sid).value;
            var alarm := AlarmFor(d, e.value, e.status, show);
            var isNew := alarm.Some? && (e.sid !in p.alarms || p.alarms[e.sid] != alarm.value.text);
            && r.data == p.data[e.sid := Push(p.data[e.sid], e.value)]
            && r.times == p.times[e.sid := Push(p.times[e.sid], timeRel)]
            && (alarm.None? ==> r.alarms == p.alarms - {e.sid})
            && (alarm.Some? ==> r.alarms == p.alarms[e.sid := alarm.value.text])
            && (q.Some? <==> isNew)
            && (!isNew ==> r.faultLog == p.faultLog && r.limitLog == p.limitLog)
            && (isNew && alarm.value.kind == FaultAlarm ==>
                  && r.faultLog == p.faultLog + [LogEntry(clock, d.name, e.sid, alarm.value.text)]
                  && r.limitLog == p.limitLog
                  && q.value == Request(e.sid, d.name, "Sensor Fault detected: " + e.status, "FAULT"))
            && (isNew && alarm.value.kind == LimitAlarm ==>
                  && r.limitLog == p.limitLog + [LogEntry(clock, d.name, e.sid, alarm.value.text)]
                  && r.faultLog == p.faultLog
                  && q.value == Request(e.sid, d.name, "Limit Exceeded: " + show(e.value), "LIMIT"))
  {
    var d := Lookup(cfg, e.sid).value;
    var alarm := AlarmFor(d, e.value, e.status, show);
    if alarm.Some? && !(e.sid in p.alarms && p.alarms[e.sid] == alarm.value.text) {
      if alarm.value.kind == FaultAlarm {
        assert e.status != "OK";
      }
    }
  }

  /** Deduplication: the same reading seen twice in a row is logged and
      alerted at most once; the second sighting only extends the histories. */
  lemma RepeatIsQuiet(cfg: seq<SensorDef>, p: Panel, e: Entry, t1: real, t2: real, c1: string, c2: string, show: real -> string)
    requires Histories(cfg, p)
    ensures var first := Observe(cfg, p, e, t1, c1, show).panel;
            var second := Observe(cfg, first, e, t2, c2, show);
            && second.request == None
            && second.panel.faultLog == first.faultLog
            && second.panel.limitLog == first.limitLog
            && second.panel.alarms == first.alarms
  {
    var first := Observe(cfg, p, e, t1, c1, show).panel;
    if e.sid in IdsOf(cfg) {
      ObserveKnown(cfg, p, e, t1, c1, show);
      ObserveKnown(cfg, first, e, t2, c2, show);
    }
  }

  /** A normal reading re-arms the sensor: the next alarm is logged again,
      even with the same message as before. */
  lemma RecoveryRearms(cfg: seq<SensorDef>, p: Panel, alarmed: Entry, normal: Entry, t: real, c: string, show: real -> string)
    requires Histories(cfg, p)
    requires normal.sid == alarmed.sid && alarmed.sid in IdsOf(cfg)
    requires AlarmFor(Lookup(cfg, alarmed.sid).value, alarmed.value, alarmed.status, show).Some?
    requires AlarmFor(Lookup(cfg, normal.sid).value, normal.value, normal.status, show).None?
    ensures var p1 := Observe(cfg, p, normal, t, c, show).panel;
            Observe(cfg, p1, alarmed, t, c, show).request.Some?
  {
    ObserveKnown(cfg, p, normal, t, c, show);
    var p1 := Observe(cfg, p, normal, t, c, show).panel;
    ObserveKnown(cfg, p1, alarmed, t, c, show);
  }

  // ---------------------------------------------------------------------
  // A whole data dictionary
  // ---------------------------------------------------------------------

  datatype Updated = Updated(panel: Panel, requests: seq<Request>)

  function Requested(q: Option<Request>): seq<Request> {
    match q
    case None => []
    case Some(r) => [r]
  }

  /** The first `i` entries of `data`, in dictionary order. */
  function UpdateUpTo(cfg: seq<SensorDef>, p: Panel, data: seq<Entry>, i: nat, timeRel: real, clock: string, show: real -> string): (r: Updated)
    requires Histories(cfg, p) && i <= |data|
    ensures Histories(cfg, r.panel) && |r.requests| <= i
    decreases i
  {
    if i == 0 then Updated(p, [])
    else
      var prev := UpdateUpTo(cfg, p, data, i - 1, timeRel, clock, show);
      var o := Observe(cfg, prev.panel, data[i - 1], timeRel, clock, show);
      Updated(o.panel, prev.requests + Requested(o.request))
  }

  lemma UpdateStep(cfg: seq<SensorDef>, p: Panel, data: seq<Entry>, i: nat, timeRel: real, clock: string, show: real -> string)
    requires Histories(cfg, p) && i < |data|
    ensures var prev := UpdateUpTo(cfg, p, data, i, timeRel, clock, show);
            var o := Observe(cfg, prev.panel, data[i], timeRel, clock, show);
            UpdateUpTo(cfg, p, data, i + 1, timeRel, clock, show) == Updated(o.panel, prev.requests + Requested(o.request))
  {
  }

  /** One more entry of `update_data`: the fold takes one `Observe` step, and
      the notifier receives that entry's request, if any. */
  lemma UpdateSendStep(cfg: seq<SensorDef>, p: Panel, data: seq<Entry>, i: nat, timeRel: real, clock: string, show: real -> string,
                       n: NotifierState, cooldown: real, hasTray: bool, now: real, fmtTime: real -> string)
    requires Histories(cfg, p) && i < |data|
    ensures var prev := UpdateUpTo(cfg, p, data, i, timeRel, clock, show);
            var o := Observe(cfg, prev.panel, data[i], timeRel, clock, show);
            && UpdateUpTo(cfg, p, data, i + 1, timeRel, clock, show) == Updated(o.panel, prev.requests + Requested(o.request))
            && SendAll(n, cooldown, hasTray, prev.requests + Requested(o.request), now, fmtTime)
               == (if o.request.Some?
                   then Alert(SendAll(n, cooldown, hasTray, prev.requests, now, fmtTime), cooldown, hasTray,
                              o.request.value.sid, o.request.value.name, o.request.value.message, o.request.value.level, now, fmtTime)
                   else SendAll(n, cooldown, hasTray, prev.requests, now, fmtTime))
  {
    var prev := UpdateUpTo(cfg, p, data, i, timeRel, clock, show);
    var o := Observe(cfg, prev.panel, data[i], timeRel, clock, show);
    UpdateStep(cfg, p, data, i, timeRel, clock, show);
    if o.request.Some? {
      SendAllSnoc(n, cooldown, hasTray, prev.requests, o.request.value, now, fmtTime);
    } else {
      assert prev.requests + Requested(o.request) == prev.requests;
    }
  }

  /** `update_data`: every entry, with one `time_rel` for the whole call. */
  function Update(cfg: seq<SensorDef>, p: Panel, data: seq<Entry>, timeRel: real, clock: string, show: real -> string): (r: Updated)
    requires Histories(cfg, p)
    ensures Histories(cfg, r.panel)
  {
    UpdateUpTo(cfg, p, data, |data|, timeRel, clock, show)
  }

  /** Entries for unconfigured ids contribute nothing: a dictionary made only
      of them leaves the panel as it was. */
  lemma {:induction false} OnlyUnknownIgnored(cfg: seq<SensorDef>, p: Panel, data: seq<Entry>, i: nat, timeRel: real, clock: string, show: real -> string)
    requires Histories(cfg, p) && i <= |data|
    requires forall k :: 0 <= k < |data| ==> data[k].sid !in IdsOf(cfg)
    ensures UpdateUpTo(cfg, p, data, i, timeRel, clock, show) == Updated(p, [])
    decreases i
  {
    if i > 0 {
      OnlyUnknownIgnored(cfg, p, data, i - 1, timeRel, clock, show);
      UnknownSensorIgnored(cfg, p, data[i - 1], timeRel, clock, show);
    }
  }

  /** The alerts requested by one call, forwarded in order to `send_alert`
      at the call's clock reading `now`. */
  function SendAll(n: NotifierState, cooldown: real, hasTray: bool, reqs: seq<Request>, now: real, fmtTime: real -> string): NotifierState
    decreases |reqs|
  {
    if reqs == [] then n
    else
      var q := reqs[|reqs| - 1];
      Alert(SendAll(n, cooldown, hasTray, reqs[..|reqs| - 1], now, fmtTime), cooldown, hasTray, q.sid, q.name, q.message, q.level, now, fmtTime)
  }

  lemma SendAllSnoc(n: NotifierState, cooldown: real, hasTray: bool, reqs: seq<Request>, q: Request, now: real, fmtTime: real -> string)
    ensures SendAll(n, cooldown, hasTray, reqs + [q], now, fmtTime)
         == Alert(SendAll(n, cooldown, hasTray, reqs, now, fmtTime), cooldown, hasTray, q.sid, q.name, q.message, q.level, now, fmtTime)
  {
    assert (reqs + [q])[..|reqs|] == reqs;
  }

  /** Alerts forwarded to the notifier are throttled by it: a requested
      alert changes nothing there when its sensor's cooldown is still
      running. */
  lemma ThrottledRequestDropped(n: NotifierState, cooldown: real, hasTray: bool, reqs: seq<Request>, q: Request, now: real, fmtTime: real -> string)
    requires !Accepts(SendAll(n, cooldown, hasTray, reqs, now, fmtTime).last, q.sid, now, cooldown)
    ensures SendAll(n, cooldown, hasTray, reqs + [q], now, fmtTime) == SendAll(n, cooldown, hasTray, reqs, now, fmtTime)
  {
    SendAllSnoc(n, cooldown, hasTray, reqs, q, now, fmtTime);
  }

  /** The panel and the notifier together, as `update_data` changes them. */
  datatype Screen = Screen(panel: Panel, notifier: NotifierState)

  /** One entry as the loop body handles it: `Observe`, then the requested
      alert, if any, handed to `send_alert` at once. */
  function Feed(cfg: seq<SensorDef>, s: Screen, e: Entry, timeRel: real, clock: string, show: real -> string,
                cooldown: real, hasTray: bool, now: real, fmtTime: real -> string): (r: Screen)
    requires Histories(cfg, s.panel)
    ensures Histories(cfg, r.panel)
  {
    var o := Observe(cfg, s.panel, e, timeRel, clock, show);
    Screen(o.panel,
           if o.request.Some?
           then Alert(s.notifier, cooldown, hasTray, o.request.value.sid, o.request.value.name, o.request.value.message, o.request.value.level, now, fmtTime)
           else s.notifier)
  }

  /** The first `i` entries fed one at a time. */
  function FeedUpTo(cfg: seq<SensorDef>, s: Screen, data: seq<Entry>, i: nat, timeRel: real, clock: string, show: real -> string,
                    cooldown: real, hasTray: bool, now: real, fmtTime: real -> string): (r: Screen)
    requires Histories(cfg, s.panel) && i <= |data|
    ensures Histories(cfg, r.panel)
    decreases i
  {
    if i == 0 then s
    else Feed(cfg, FeedUpTo(cfg, s, data, i - 1, timeRel, clock, show, cooldown, hasTray, now, fmtTime), data[i - 1],
              timeRel, clock, show, cooldown, hasTray, now, fmtTime)
  }

  /** Sending each alert as soon as its entry asks for it is the same as
      folding the panel first and then sending every requested alert in
      order. */
  lemma {:induction false} FeedIsUpdateThenSend(cfg: seq<SensorDef>, p: Panel, n: NotifierState, data: seq<Entry>, i: nat,
                                                 timeRel: real, clock: string, show: real -> string,
                                                 cooldown: real, hasTray: bool, now: real, fmtTime: real -> string)
    requires Histories(cfg, p) && i <= |data|
    ensures var u := UpdateUpTo(cfg, p, data, i, timeRel, clock, show);
            FeedUpTo(cfg, Screen(p, n), data, i, timeRel, clock, show, cooldown, hasTray, now, fmtTime)
              == Screen(u.panel, SendAll(n, cooldown, hasTray, u.requests, now, fmtTime))
    decreases i
  {
    if i > 0 {
      FeedIsUpdateThenSend(cfg, p, n, data, i - 1, timeRel, clock, show, cooldown, hasTray, now, fmtTime);
      UpdateSendStep(cfg, p, data, i - 1, timeRel, clock, show, n, cooldown, hasTray, now, fmtTime);
    }
  }

  // ---------------------------------------------------------------------
  // The console lock
  // ---------------------------------------------------------------------

  datatype LockStep = LockStep(unlocked: bool, logLine: Option<string>)

  /** `unlock_console`: an unlocked console locks without asking; a locked
      one opens only for an accepted dialog holding the admin password; a
      wrong password is logged; a cancelled dialog changes nothing.
      `ok` and `password` are the dialog's result. */
  function NextLock(unlocked: bool, ok: bool, password: string): (r: LockStep)
    ensures unlocked ==> r == LockStep(false, Some("Console Locked."))
    ensures !unlocked ==> (r.unlocked <==> ok && password == AdminPassword)
    ensures !ok && !unlocked ==> r.logLine == None
  {
    if unlocked then LockStep(false, Some("Console Locked."))
    else if ok && password == AdminPassword then LockStep(true, Some("Access Granted: Console Unlocked."))
    else if ok then LockStep(false, Some("Access Denied: Incorrect Password."))
    else LockStep(false, None)
  }

  /** One press of the lock button with the dialog's answer. */
  datatype Attempt = Attempt(ok: bool, password: string)

  function LockAfter(unlocked: bool, attempts: seq<Attempt>): bool
    decreases |attempts|
  {
    if attempts == [] then unlocked
    else
      var a := attempts[|attempts| - 1];
      NextLock(LockAfter(unlocked, attempts[..|attempts| - 1]), a.ok, a.password).unlocked
  }

  /** Starting locked, the console is unlocked only if the last press found
      it locked and was answered with the admin password. */
  lemma LockNeedsPassword(attempts: seq<Attempt>)
    requires LockAfter(false, attempts)
    ensures |attempts| > 0
    ensures !LockAfter(false, attempts[..|attempts| - 1])
    ensures attempts[|attempts| - 1].ok && attempts[|attempts| - 1].password == AdminPassword
  {
  }

  /** Pressing twice from unlocked, the second time cancelling, leaves the
      console locked. */
  lemma RelockIsSticky(password: string)
    ensures LockAfter(true, [Attempt(true, AdminPassword), Attempt(false, password)]) == false
  {
    var two := [Attempt(true, AdminPassword), Attempt(false, password)];
    assert two[..1] == [Attempt(true, AdminPassword)];
    assert two[..1][..0] == [];
  }

  // ---------------------------------------------------------------------
  // The window
  // ---------------------------------------------------------------------

  class Dashboard {
    /** `SENSOR_CONFIG`, the table the dashboard checks readings against. */
    const config: seq<SensorDef>
    const startTime: real
    const notifications: NotificationManager
    const comm: CommThread.Client
    var alarmStates: map<string, string>
    var dataHistory: map<string, seq<real>>
    var timeHistory: map<string, seq<real>>
    var faultLog: seq<string>
    var limitLog: seq<string>
    var systemLog: seq<string>
    var isUnlocked: bool
    /** Whether the maintenance buttons are enabled. */
    var controlsEnabled: bool

    ghost function View(): Panel
      reads this
    {
      Panel(alarmStates, dataHistory, timeHistory, faultLog, limitLog)
    }

    /** Histories exist for the configured sensors, and the maintenance
        buttons are enabled exactly while the console is unlocked. */
    ghost predicate Valid()
      reads this
    {
      Histories(config, View()) && controlsEnabled == isUnlocked
    }

    /** The window at start-up, given the reader thread and the time it
        reads. The notifier gets the window as parent, hence a tray icon. */
    constructor (commThread: CommThread.Client, now: real)
      ensures Valid()
      ensures config == Base && startTime == now && comm == commThread
      ensures fresh(notifications) && notifications.hasTray && notifications.cooldown == Cooldown
      ensures notifications.State() == NotifierState(map[], [])
      ensures forall sid :: sid in IdsOf(config) ==> dataHistory[sid] == [] && timeHistory[sid] == []
      ensures alarmStates == map[] && faultLog == [] && limitLog == [] && systemLog == []
      ensures !isUnlocked
    {
      comm := commThread;
      config := Base;
      var empty := map sid | sid in IdsOf(Base) :: [];
      dataHistory := empty;
      timeHistory := empty;
      startTime := now;
      alarmStates := map[];
      notifications := new NotificationManager(true);
      faultLog := [];
      limitLog := [];
      systemLog := [];
      controlsEnabled := false;
      isUnlocked := false;
    }

    /** `update_data`, given the time it reads, the wall-clock text of its
        log lines, `str` on floats, and the notifier's time rendering. */
    method UpdateData(data: seq<Entry>, now: real, clock: string, show: real -> string, fmtTime: real -> string)
      requires Valid()
      modifies this, notifications
      ensures Valid()
      ensures View() == Update(config, old(View()), data, now - startTime, clock, show).panel
      ensures notifications.State()
           == SendAll(old(notifications.State()), notifications.cooldown, notifications.hasTray,
                      Update(config, old(View()), data, now - startTime, clock, show).requests, now, fmtTime)
      ensures systemLog == old(systemLog) && isUnlocked == old(isUnlocked) && controlsEnabled == old(controlsEnabled)
    {
      var timeRel := now - startTime;
      ghost var s0 := Screen(View(), notifications.State());
      FeedAll(data, timeRel, clock, show, now, fmtTime);
      FeedIsUpdateThenSend(config, s0.panel, s0.notifier, data, |data|, timeRel, clock, show,
                           notifications.cooldown, notifications.hasTray, now, fmtTime);
    }

    /** `update_data`'s loop: the entries one at a time, in order. */
    method FeedAll(data: seq<Entry>, timeRel: real, clock: string, show: real -> string, now: real, fmtTime: real -> string)
      requires Valid()
      modifies this, notifications
      ensures Valid()
      ensures Screen(View(), notifications.State())
           == FeedUpTo(config, Screen(old(View()), old(notifications.State())), data, |data|, timeRel, clock, show,
                       notifications.cooldown, notifications.hasTray, now, fmtTime)
      ensures systemLog == old(systemLog) && isUnlocked == old(isUnlocked) && controlsEnabled == old(controlsEnabled)
    {
      ghost var s0 := Screen(View(), notifications.State());
      var i := 0;
      while i < |data|
        invariant i <= |data| && Valid()
        invariant Screen(View(), notifications.State())
               == FeedUpTo(config, s0, data, i, timeRel, clock, show, notifications.cooldown, notifications.hasTray, now, fmtTime)
        invariant systemLog == old(systemLog) && isUnlocked == old(isUnlocked) && controlsEnabled == old(controlsEnabled)
      {
        ObserveEntry(data[i], timeRel, clock, show, now, fmtTime);
        i := i + 1;
      }
    }

    /** The body of `update_data`'s loop for one `(sid, reading)` pair. */
    method ObserveEntry(e: Entry, timeRel: real, clock: string, show: real -> string, now: real, fmtTime: real -> string)
      requires Valid()
      modifies this, notifications
      ensures Valid()
      ensures Screen(View(), notifications.State())
           == Feed(config, Screen(old(View()), old(notifications.State())), e, timeRel, clock, show,
                   notifications.cooldown, notifications.hasTray, now, fmtTime)
      ensures systemLog == old(systemLog) && isUnlocked == old(isUnlocked) && controlsEnabled == old(controlsEnabled)
    {
      ghost var p := View();
      var info := Lookup(config, e.sid);
      if info.None? {
        return;
      }
      var d := info.value;
      var alarm := AlarmFor(d, e.value, e.status, show);
      ghost var o := Dedup(p.alarms, p.faultLog, p.limitLog, e.sid, d.name, alarm, e.status, e.value, clock, show);
      ghost var data := p.data[e.sid := Push(p.data[e.sid], e.value)];
      ghost var times := p.times[e.sid := Push(p.times[e.sid], timeRel)];
      assert Observe(config, p, e, timeRel, clock, show) == Observed(Panel(o.alarms, data, times, o.faultLog, o.limitLog), o.request);
      RecordAlarm(e.sid, d.name, alarm, e.status, e.value, clock, show, now, fmtTime);
      dataHistory := dataHistory[e.sid := Push(dataHistory[e.sid], e.value)];
      timeHistory := timeHistory[e.sid := Push(timeHistory[e.sid], timeRel)];
      assert View() == Panel(o.alarms, data, times, o.faultLog, o.limitLog);
    }

    /** The alarm part of `update_data`'s loop body. */
    method RecordAlarm(sid: string, name: string, alarm: Option<Alarm>, status: string, value: real,
                       clock: string, show: real -> string, now: real, fmtTime: real -> string)
      modifies this, notifications
      ensures var o := Dedup(old(alarmStates), old(faultLog), old(limitLog), sid, name, alarm, status, value, clock, show);
              && alarmStates == o.alarms && faultLog == o.faultLog && limitLog == o.limitLog
              && notifications.State()
                 == (if o.request.Some?
                     then Alert(old(notifications.State()), notifications.cooldown, notifications.hasTray,
                                o.request.value.sid, o.request.value.name, o.request.value.message, o.request.value.level, now, fmtTime)
                     else old(notifications.State()))
      ensures dataHistory == old(dataHistory) && timeHistory == old(timeHistory)
      ensures systemLog == old(systemLog) && isUnlocked == old(isUnlocked) && controlsEnabled == old(controlsEnabled)
    {
      if alarm.Some? {
        var msg := alarm.value.text;
        if !(sid in alarmStates && alarmStates[sid] == msg) {
          var logEntry := LogEntry(clock, name, sid, msg);
          if alarm.value.kind == FaultAlarm {
            faultLog := faultLog + [logEntry];
            notifications.SendAlert(sid, name, "Sensor Fault detected: " + status, "FAULT", now, fmtTime);
          } else {
            limitLog := limitLog + [logEntry];
            notifications.SendAlert(sid, name, "Limit Exceeded: " + show(value), "LIMIT", now, fmtTime);
          }
          alarmStates := alarmStates[sid := msg];
        }
      } else if sid in alarmStates {
        alarmStates := alarmStates - {sid};
      } else {
        assert alarmStates - {sid} == alarmStates;
      }
    }

    /** `clear_local_logs`: both alarm logs and every alarm record are
        cleared, so a sensor still in alarm is logged again on its next
        reading; the histories stay. */
    method ClearLocalLogs()
      requires Valid()
      modifies this
      ensures Valid()
      ensures faultLog == [] && limitLog == [] && alarmStates == map[]
      ensures systemLog == old(systemLog) + ["Local Logs Cleared."]
      ensures dataHistory == old(dataHistory) && timeHistory == old(timeHistory)
      ensures isUnlocked == old(isUnlocked) && controlsEnabled == old(controlsEnabled)
    {
      faultLog := [];
      limitLog := [];
      alarmStates := map[];
      systemLog := systemLog + ["Local Logs Cleared."];
    }

    /** `unlock_console`, given the dialog's answer (ignored when the
        console is already unlocked, since no dialog is shown then). */
    method UnlockConsole(ok: bool, password: string)
      requires Valid()
      modifies this
      ensures Valid()
      ensures isUnlocked == NextLock(old(isUnlocked), ok, password).unlocked
      ensures systemLog == old(systemLog) + Logged(NextLock(old(isUnlocked), ok, password).logLine)
      ensures View() == old(View())
    {
      if isUnlocked {
        isUnlocked := false;
        controlsEnabled := false;
        systemLog := systemLog + ["Console Locked."];
      } else {
        if ok && password == AdminPassword {
          isUnlocked := true;
          controlsEnabled := true;
          systemLog := systemLog + ["Access Granted: Console Unlocked."];
        } else if ok {
          systemLog := systemLog + ["Access Denied: Incorrect Password."];
        }
      }
    }

    /** `send_remote_command`: the command goes to the reader thread and is
        logged. */
    method SendRemoteCommand(cmd: string, dumps: Json -> string)
      requires Valid()
      modifies this, comm
      ensures Valid()
      ensures comm.link == old(comm.link)
      ensures comm.written == old(comm.written)
                            + (if comm.link == CommThread.Socket(true) then [dumps(CommThread.CommandPayload(cmd, map[]))] else [])
      ensures systemLog == old(systemLog) + ["Command Sent: " + cmd]
      ensures View() == old(View()) && isUnlocked == old(isUnlocked) && controlsEnabled == old(controlsEnabled)
    {
      comm.SendCommand(cmd, map[], dumps);
      systemLog := systemLog + ["Command Sent: " + cmd];
    }
  }

  function Logged(line: Option<string>): seq<string> {
    match line
    case None => []
    case Some(l) => [l]
  }

  /** After clearing the logs, a sensor whose reading is still in alarm is
      logged and alerted again. */
  lemma ClearedAlarmRelogged(cfg: seq<SensorDef>, p: Panel, e: Entry, t: real, c: string, show: real -> string)
    requires Histories(cfg, p) && e.sid in IdsOf(cfg)
    requires AlarmFor(Lookup(cfg, e.sid).value, e.value, e.status, show).Some?
    ensures Observe(cfg, p.(alarms := map[], faultLog := [], limitLog := []), e, t, c, show).request.Some?
  {
    ObserveKnown(cfg, p.(alarms := map[], faultLog := [], limitLog := []), e, t, c, show);
  }
}
