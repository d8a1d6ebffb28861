/** `NotificationManager`: the per-sensor cooldown that rate-limits alerts,
    the three message formats, and the icon chosen for a desktop message.
    Delivery itself (the tray balloon, SMTP, the SMS gateway, and the mock
    prints used while those are disabled) is modelled as the list of
    messages handed to each channel. */
module Notifications {
  import opened Strings

  /** Seconds between two alerts for the same sensor. */
  const Cooldown: real := 10.0

  /** `n` dashes. */
  function Dashes(n: nat): (r: string)
    ensures |r| == n && forall i :: 0 <= i < n ==> r[i] == '-'
  {
    if n == 0 then "" else Dashes(n - 1) + "-"
  }

  /** The rule line of the e-mail body: fifty dashes. */
  const Rule: string := Dashes(50)

  const Header: string := "SMART FACTORY ALERT SYSTEM"
  const Closing: string := "Please take immediate action."

  datatype Icon = Warning | Critical

  /** A message handed to one channel. */
  datatype Delivery =
    | Desktop(title: string, message: string, icon: Icon)
    | Email(subject: string, body: string)
    | Sms(body: string)

  function Subject(level: string): string {
    "Smart Factory Alert: " + level
  }

  /** The short form used for the desktop balloon and the SMS. */
  function ShortMessage(level: string, sensorName: string, message: string): string {
    "[" + level + "] " + sensorName + ": " + message
  }

  /** The lines of the e-mail body. */
  function BodyLines(level: string, sensorName: string, sensorId: string, stamp: string, message: string): (lines: seq<string>)
    ensures |lines| == 11
  {
    [ Header,
      Rule,
      "Event Type: " + level,
      "Sensor:     " + sensorName,
      "ID:         " + sensorId,
      "Time:       " + stamp,
      "",
      "Message:",
      message,
      Rule,
      Closing ]
  }

  /** A line, a newline, and what follows. */
  function ThenLine(line: string, rest: string): string {
    line + "\n" + rest
  }

  /** The e-mail body: the lines above, each followed by a newline except
      the closing one. */
  function FullMessage(level: string, sensorName: string, sensorId: string, stamp: string, message: string): string {
    ThenLine(Header, ThenLine(Rule,
    ThenLine("Event Type: " + level, ThenLine("Sensor:     " + sensorName,
    ThenLine("ID:         " + sensorId, ThenLine("Time:       " + stamp,
    ThenLine("", ThenLine("Message:", ThenLine(message,
    ThenLine(Rule, Closing))))))))))
  }

  /** The body is its lines joined with newlines. */
  lemma FullMessageIsJoin(level: string, sensorName: string, sensorId: string, stamp: string, message: string)
    ensures FullMessage(level, sensorName, sensorId, stamp, message)
         == Join(BodyLines(level, sensorName, sensorId, stamp, message), '\n')
  {
    var lines := BodyLines(level, sensorName, sensorId, stamp, message);
    assert lines[10..] == [Closing];
    JoinFrom(lines, '\n', 9);
    JoinFrom(lines, '\n', 8);
    JoinFrom(lines, '\n', 7);
    JoinFrom(lines, '\n', 6);
    JoinFrom(lines, '\n', 5);
    JoinFrom(lines, '\n', 4);
    JoinFrom(lines, '\n', 3);
    JoinFrom(lines, '\n', 2);
    JoinFrom(lines, '\n', 1);
    JoinFrom(lines, '\n', 0);
    assert lines[0..] == lines;
  }

  /** When no field holds a newline, the body splits back into exactly its
      eleven lines: the event type, sensor, id, time and message each sit on
      a line of their own, and a blank line precedes "Message:". */
  lemma FullMessageLines(level: string, sensorName: string, sensorId: string, stamp: string, message: string)
    requires '\n' !in level && '\n' !in sensorName && '\n' !in sensorId && '\n' !in stamp && '\n' !in message
    ensures Split(FullMessage(level, sensorName, sensorId, stamp, message), '\n')
         == BodyLines(level, sensorName, sensorId, stamp, message)
  {
    FullMessageIsJoin(level, sensorName, sensorId, stamp, message);
    BodyLinesSingle(level, sensorName, sensorId, stamp, message);
    SplitJoin(BodyLines(level, sensorName, sensorId, stamp, message), '\n');
  }

  /** No line of the body holds a newline when no field does. */
  lemma BodyLinesSingle(level: string, sensorName: string, sensorId: string, stamp: string, message: string)
    requires '\n' !in level && '\n' !in sensorName && '\n' !in sensorId && '\n' !in stamp && '\n' !in message
    ensures forall k :: 0 <= k < 11 ==> '\n' !in BodyLines(level, sensorName, sensorId, stamp, message)[k]
  {
    NoNewlineConcat("Event Type: ", level);
    NoNewlineConcat("Sensor:     ", sensorName);
    NoNewlineConcat("ID:         ", sensorId);
    NoNewlineConcat("Time:       ", stamp);
    FixedLinesSingle();
  }

  lemma FixedLinesSingle()
    ensures '\n' !in Header && '\n' !in Rule && '\n' !in Closing && '\n' !in "Message:" && '\n' !in ""
  {
  }

  lemma NoNewlineConcat(a: string, b: string)
    requires '\n' !in a && '\n' !in b
    ensures '\n' !in a + b
  {
  }

  /** `_send_desktop`'s icon: Critical when the title contains "FAULT". */
  function IconFor(title: string): Icon {
    if Contains(title, "FAULT") then Critical else Warning
  }

  /** The subject's fixed prefix holds no "FAULT", so the icon is Critical
      exactly when the level itself contains "FAULT". */
  lemma SubjectIcon(level: string)
    ensures IconFor(Subject(level)) == Critical <==> Contains(level, "FAULT")
  {
    var p := "Smart Factory Alert: ";
    var front, back := "Smart ", "actory Alert: ";
    assert p == front + "F" + back;
    assert 'F' !in front && 'F' !in back;
    ContainsConcat(p, level, "FAULT");
    forall i: nat | i < |p|
      ensures !OccursAt(p + level, "FAULT", i)
    {
      var s := p + level;
      if i < 6 {
        assert s[i] == front[i];
      } else if i > 6 {
        assert s[i] == back[i - 7];
      } else {
        assert s[7] == back[0];
      }
      MismatchNotOccurs(s, "FAULT", i);
    }
  }

  lemma FaultAlertIsCritical()
    ensures IconFor(Subject("FAULT")) == Critical
    ensures IconFor(Subject("LIMIT")) == Warning
  {
    SubjectIcon("FAULT");
    SubjectIcon("LIMIT");
    assert OccursAt("FAULT", "FAULT", 0);
    forall i: nat | i <= 5
      ensures !OccursAt("LIMIT", "FAULT", i)
    {
      if i == 0 {
        assert "LIMIT"[0] != "FAULT"[0];
      }
    }
  }

  // ---------------------------------------------------------------------
  // The cooldown gate
  // ---------------------------------------------------------------------

  /** `last_alert_time.get(sensor_id, 0)`. */
  function LastAlert(last: map<string, real>, sensorId: string): real {
    if sensorId in last then last[sensorId] else 0.0
  }

  /** An alert goes out unless it comes less than `cooldown` after the last
      one for the same sensor. */
  predicate Accepts(last: map<string, real>, sensorId: string, now: real, cooldown: real) {
    !(now - LastAlert(last, sensorId) < cooldown)
  }

  /** The gate opens again exactly `cooldown` after an alert, and not before. */
  lemma GateReopensAtCooldown(last: map<string, real>, sensorId: string, t: real, now: real, cooldown: real)
    ensures Accepts(last[sensorId := t], sensorId, now, cooldown) <==> now >= t + cooldown
  {
  }

  /** Sensors are rate-limited independently. */
  lemma GatePerSensor(last: map<string, real>, sensorId: string, other: string, t: real, now: real, cooldown: real)
    requires other != sensorId
    ensures Accepts(last[other := t], sensorId, now, cooldown) == Accepts(last, sensorId, now, cooldown)
  {
  }

  /** A sensor never alerted before is measured against time 0. */
  lemma FirstAlert(last: map<string, real>, sensorId: string, now: real, cooldown: real)
    requires sensorId !in last
    ensures Accepts(last, sensorId, now, cooldown) <==> now >= cooldown
  {
  }

  datatype NotifierState = NotifierState(last: map<string, real>, outbox: seq<Delivery>)

  /** What one accepted alert hands to the channels, in order: the desktop
      balloon (only with a tray icon), the e-mail, the SMS. */
  function Deliveries(hasTray: bool, sensorId: string, sensorName: string, message: string, level: string, stamp: string): (ds: seq<Delivery>)
    ensures |ds| == (if hasTray then 3 else 2)
    ensures ds[|ds| - 2] == Email(Subject(level), FullMessage(level, sensorName, sensorId, stamp, message))
    ensures ds[|ds| - 1] == Sms(ShortMessage(level, sensorName, message))
    ensures hasTray ==> ds[0] == Desktop(Subject(level), ShortMessage(level, sensorName, message), IconFor(Subject(level)))
  {
    var short := ShortMessage(level, sensorName, message);
    (if hasTray then [Desktop(Subject(level), short, IconFor(Subject(level)))] else [])
    + [Email(Subject(level), FullMessage(level, sensorName, sensorId, stamp, message)), Sms(short)]
  }

  /** `send_alert`: rejected alerts change nothing; an accepted one records
      the time for its sensor and is delivered. `fmtTime` stands for the
      local-time rendering `%Y-%m-%d %H:%M:%S`. */
  function Alert(n: NotifierState, cooldown: real, hasTray: bool, sensorId: string, sensorName: string,
                 message: string, level: string, now: real, fmtTime: real -> string): (r: NotifierState)
    ensures !Accepts(n.last, sensorId, now, cooldown) ==> r == n
    ensures Accepts(n.last, sensorId, now, cooldown) ==>
              && r.last == n.last[sensorId := now]
              && r.outbox == n.outbox + Deliveries(hasTray, sensorId, sensorName, message, level, fmtTime(now))
  {
    if now - LastAlert(n.last, sensorId) < cooldown then n
    else NotifierState(n.last[sensorId := now],
                       n.outbox + Deliveries(hasTray, sensorId, sensorName, message, level, fmtTime(now)))
  }

  /** One call of `send_alert`: its arguments, and the time it reads. */
  datatype Call = Call(sensorId: string, sensorName: string, message: string, level: string, at: real)

  /** Every call in `r` comes at least `cooldown` after the time `last`
      records for its sensor. */
  predicate AfterRecorded(r: seq<Call>, last: map<string, real>, cooldown: real) {
    forall i :: 0 <= i < |r| ==> r[i].at - LastAlert(last, r[i].sensorId) >= cooldown
  }

  /** Calls in `r` for the same sensor are at least `cooldown` apart. */
  predicate Spaced(r: seq<Call>, cooldown: real) {
    forall i, j :: 0 <= i < j < |r| && r[i].sensorId == r[j].sensorId ==> r[j].at - r[i].at >= cooldown
  }

  /** The calls that get through, in order, for a run of calls starting from
      the recorded times `last`. */
  function Throttle(last: map<string, real>, calls: seq<Call>, cooldown: real): (r: seq<Call>)
    ensures |r| <= |calls|
    ensures forall i :: 0 <= i < |r| ==> r[i] in calls
    decreases |calls|
  {
    if calls == [] then []
    else
      var c := calls[0];
      if Accepts(last, c.sensorId, c.at, cooldown) then [c] + Throttle(last[c.sensorId := c.at], calls[1..], cooldown)
      else Throttle(last, calls[1..], cooldown)
  }

  /** No two alerts for the same sensor get through less than `cooldown`
      apart, and each is at least `cooldown` after the time recorded before
      the run. */
  lemma {:induction false} ThrottleSpaced(last: map<string, real>, calls: seq<Call>, cooldown: real)
    requires cooldown >= 0.0
    ensures AfterRecorded(Throttle(last, calls, cooldown), last, cooldown)
    ensures Spaced(Throttle(last, calls, cooldown), cooldown)
    decreases |calls|
  {
    if calls != [] {
      var c := calls[0];
      if Accepts(last, c.sensorId, c.at, cooldown) {
        var last' := last[c.sensorId := c.at];
        ThrottleSpaced(last', calls[1..], cooldown);
        var rest := Throttle(last', calls[1..], cooldown);
        var r := Throttle(last, calls, cooldown);
        assert r == [c] + rest;
        assert AfterRecorded(rest, last', cooldown) && Spaced(rest, cooldown);
        forall i | 0 <= i < |r|
          ensures r[i].at - LastAlert(last, r[i].sensorId) >= cooldown
        {
          if i > 0 {
            assert r[i] == rest[i - 1];
            assert LastAlert(last', r[i].sensorId) >= LastAlert(last, r[i].sensorId);
          }
        }
        forall i, j | 0 <= i < j < |r| && r[i].sensorId == r[j].sensorId
          ensures r[j].at - r[i].at >= cooldown
        {
          assert r[j] == rest[j - 1];
          if i == 0 {
            assert LastAlert(last', c.sensorId) == c.at;
          } else {
            assert r[i] == rest[i - 1];
          }
        }
      } else {
        ThrottleSpaced(last, calls[1..], cooldown);
        assert Throttle(last, calls, cooldown) == Throttle(last, calls[1..], cooldown);
      }
    }
  }

  /** What one accepted call hands to the channels. */
  function Delivered(hasTray: bool, c: Call, fmtTime: real -> string): seq<Delivery> {
    Deliveries(hasTray, c.sensorId, c.sensorName, c.message, c.level, fmtTime(c.at))
  }

  /** `send_alert` for one call. */
  function AlertCall(n: NotifierState, cooldown: real, hasTray: bool, c: Call, fmtTime: real -> string): NotifierState {
    Alert(n, cooldown, hasTray, c.sensorId, c.sensorName, c.message, c.level, c.at, fmtTime)
  }

  lemma AlertCallStep(n: NotifierState, cooldown: real, hasTray: bool, c: Call, fmtTime: real -> string)
    ensures AlertCall(n, cooldown, hasTray, c, fmtTime)
         == if Accepts(n.last, c.sensorId, c.at, cooldown)
            then NotifierState(n.last[c.sensorId := c.at], n.outbox + Delivered(hasTray, c, fmtTime))
            else n
  {
  }

  /** A run of `send_alert` calls on one notifier, oldest first. */
  function AlertAll(n: NotifierState, cooldown: real, hasTray: bool, calls: seq<Call>, fmtTime: real -> string): NotifierState
    decreases |calls|
  {
    if calls == [] then n
    else AlertAll(AlertCall(n, cooldown, hasTray, calls[0], fmtTime), cooldown, hasTray, calls[1..], fmtTime)
  }

  /** The times recorded by a run of accepted calls. */
  function Record(last: map<string, real>, r: seq<Call>): map<string, real>
    decreases |r|
  {
    if r == [] then last else Record(last[r[0].sensorId := r[0].at], r[1..])
  }

  /** What a run of accepted calls hands to the channels, in order. */
  function Outbox(hasTray: bool, r: seq<Call>, fmtTime: real -> string): seq<Delivery>
    decreases |r|
  {
    if r == [] then [] else Delivered(hasTray, r[0], fmtTime) + Outbox(hasTray, r[1..], fmtTime)
  }

  /** The notifier lets through exactly the calls `Throttle` accepts: it
      records their times and delivers them, in order, and nothing else. So
      what it delivers for one sensor is spaced as `ThrottleSpaced` says. */
  lemma {:induction false} AlertAllIsThrottle(n: NotifierState, cooldown: real, hasTray: bool, calls: seq<Call>, fmtTime: real -> string)
    ensures AlertAll(n, cooldown, hasTray, calls, fmtTime).last == Record(n.last, Throttle(n.last, calls, cooldown))
    ensures AlertAll(n, cooldown, hasTray, calls, fmtTime).outbox == n.outbox + Outbox(hasTray, Throttle(n.last, calls, cooldown), fmtTime)
    decreases |calls|
  {
    if calls != [] {
      var c := calls[0];
      var n' := AlertCall(n, cooldown, hasTray, c, fmtTime);
      AlertCallStep(n, cooldown, hasTray, c, fmtTime);
      AlertAllIsThrottle(n', cooldown, hasTray, calls[1..], fmtTime);
      if Accepts(n.last, c.sensorId, c.at, cooldown) {
        var rest := Throttle(n'.last, calls[1..], cooldown);
        var r := [c] + rest;
        assert Throttle(n.last, calls, cooldown) == r;
        assert r[0] == c && r[1..] == rest;
        assert Record(n.last, r) == Record(n'.last, rest);
        assert Outbox(hasTray, r, fmtTime) == Delivered(hasTray, c, fmtTime) + Outbox(hasTray, rest, fmtTime);
      }
    }
  }

  /** `NotificationManager`. The tray icon exists when a parent window was
      given. */
  class NotificationManager {
    const hasTray: bool
    const cooldown: real
    var lastAlertTime: map<string, real>
    var outbox: seq<Delivery>

    ghost function State(): NotifierState
      reads this
    {
      NotifierState(lastAlertTime, outbox)
    }

    constructor (hasParent: bool)
      ensures hasTray == hasParent && cooldown == Cooldown
      ensures lastAlertTime == map[] && outbox == []
    {
      hasTray := hasParent;
      cooldown := Cooldown;
      lastAlertTime := map[];
      outbox := [];
    }

    /** `send_alert`, given the time it reads. */
    method SendAlert(sensorId: string, sensorName: string, message: string, level: string, now: real, fmtTime: real -> string)
      modifies this
      ensures State() == Alert(old(State()), cooldown, hasTray, sensorId, sensorName, message, level, now, fmtTime)
    {
      var last := if sensorId in lastAlertTime then lastAlertTime[sensorId] else 0.0;
      if now - last < cooldown {
        return;
      }
      lastAlertTime := lastAlertTime[sensorId := now];
      var timestampStr := fmtTime(now);
      var subject := "Smart Factory Alert: " + level;
      var fullMsg := FullMessage(level, sensorName, sensorId, timestampStr, message);
      var shortMsg := "[" + level + "] " + sensorName + ": " + message;
      SendDesktop(subject, shortMsg);
      outbox := outbox + [Email(subject, fullMsg)];
      outbox := outbox + [Sms(shortMsg)];
    }

    /** `_send_desktop`: only with a tray icon. */
    method SendDesktop(title: string, message: string)
      modifies this
      ensures lastAlertTime == old(lastAlertTime)
      ensures outbox == old(outbox) + (if hasTray then [Desktop(title, message, IconFor(title))] else [])
    {
      if hasTray {
        var iconType := Warning;
        if Contains(title, "FAULT") {
          iconType := Critical;
        }
        outbox := outbox + [Desktop(title, message, iconType)];
      }
    }
  }
}
