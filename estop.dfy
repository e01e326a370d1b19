/** EmergencyStop.Estop of EStop.cs: the message is checked, then raised as an
    alarm through the static `Alarm` helper and archived in the log. The log
    service's source is not part of this model: it is an append-only list of
    entries, each holding a timestamp and the message. */
module EmergencyStop {
  import opened DotNet
  import opened AlarmService

  /** One archived log entry; the exact layout of the log service's lines is
      not known, only that an entry carries its message. */
  function LogEntry(stamp: string, message: string): (entry: string)
    ensures Contains(entry, message)
  {
    AlarmLine(stamp, message)
  }

  /** The log service: entries are only ever appended. */
  class Log {
    var entries: seq<string>

    constructor (entries: seq<string>)
      ensures this.entries == entries
    {
      this.entries := entries;
    }

    /** Archive: appends one entry for the message (null archived as ""). */
    method Archive(message: Option<string>, stamp: string)
      modifies this
      ensures entries == old(entries) + [LogEntry(stamp, MessageText(message))]
    {
      entries := entries + [LogEntry(stamp, MessageText(message))];
    }
  }

  /** What one Estop call does to the alarm lines and the log entries, as
      values: None means the call throws and nothing changes. */
  function EstopEffect(message: Option<string>, alarmPresent: bool, alarmLines: seq<string>,
                       logEntries: seq<string>, alarmStamp: string, logStamp: string)
    : (r: Option<(bool, seq<string>, seq<string>)>)
    ensures message.None? <==> r.None?
    ensures r.Some? && AllWhiteSpace(message.value) ==> r.value == (alarmPresent, alarmLines, logEntries)
    ensures r.Some? && !AllWhiteSpace(message.value) ==>
              && r.value.0
              && r.value.1 == Visible(alarmPresent, alarmLines) + [AlarmLine(alarmStamp, message.value)]
              && r.value.2 == logEntries + [LogEntry(logStamp, message.value)]
  {
    if message.None? then None
    else if AllWhiteSpace(message.value) then Some((alarmPresent, alarmLines, logEntries))
    else Some((true, Visible(alarmPresent, alarmLines) + [AlarmLine(alarmStamp, message.value)],
               logEntries + [LogEntry(logStamp, message.value)]))
  }

  /** An accepted message grows the alarm file and the log by exactly one line
      each, and both new lines contain the message; the earlier alarms and log
      entries stay in front. */
  lemma EstopRecordsOnce(message: string, alarmPresent: bool, alarmLines: seq<string>,
                         logEntries: seq<string>, alarmStamp: string, logStamp: string)
    requires !AllWhiteSpace(message)
    ensures var r := EstopEffect(Some(message), alarmPresent, alarmLines, logEntries, alarmStamp, logStamp);
            && r.Some?
            && |r.value.1| == |Visible(alarmPresent, alarmLines)| + 1
            && Contains(r.value.1[|r.value.1| - 1], message)
            && r.value.1[..|r.value.1| - 1] == Visible(alarmPresent, alarmLines)
            && |r.value.2| == |logEntries| + 1
            && Contains(r.value.2[|r.value.2| - 1], message)
            && r.value.2[..|logEntries|] == logEntries
            && !NoAlarms(r.value.0, r.value.1)
  {
    var r := EstopEffect(Some(message), alarmPresent, alarmLines, logEntries, alarmStamp, logStamp);
    RaisedAlarmIsVisible(Visible(alarmPresent, alarmLines), alarmStamp, message);
    assert r.value.1[..|r.value.1| - 1] == Visible(alarmPresent, alarmLines);
    assert r.value.2[..|logEntries|] == logEntries;
  }

  /** Estop: a null message throws ArgumentNullException, an empty or blank one
      is ignored, and any other one raises one alarm and then archives one log
      entry. Nothing else is touched. */
  method Estop(message: Option<string>, alarm: Alarm, log: Log, alarmStamp: string, logStamp: string)
    returns (thrown: Option<Exception>)
    modifies alarm.default.file, log
    ensures thrown == (if message.None? then Some(ArgumentNullException) else None)
    ensures var r := EstopEffect(message, old(alarm.default.file.present), old(alarm.default.file.lines),
                                 old(log.entries), alarmStamp, logStamp);
            r.None? ==> unchanged(alarm.default.file, log)
    ensures var r := EstopEffect(message, old(alarm.default.file.present), old(alarm.default.file.lines),
                                 old(log.entries), alarmStamp, logStamp);
            r.Some? ==> (alarm.default.file.present, alarm.default.file.lines, log.entries) == r.value
  {
    if message.None? {
      return Some(ArgumentNullException);
    }
    if IsNullOrWhiteSpace(message) {
      return None;
    }
    alarm.Raise(message, alarmStamp);
    log.Archive(message, logStamp);
    return None;
  }

  /** The e-stop tests: a reason is raised once and archived once; blank and
      null reasons leave both stores as they were. */
  method EstopScenarios(s1: string, s2: string)
  {
    var file := new AlarmFile(false, []);
    var alarm := new Alarm(file);
    var log := new Log([]);

    var blank := Estop(Some("   "), alarm, log, s1, s2);
    assert blank.None? && alarm.ReadAll() == [] && log.entries == [];
    var nul := Estop(None, alarm, log, s1, s2);
    assert nul == Some(ArgumentNullException) && alarm.ReadAll() == [] && log.entries == [];

    assert !AllWhiteSpace("Fault detected") by { assert !IsWhiteSpace("Fault detected"[0]); }
    var ok := Estop(Some("Fault detected"), alarm, log, s1, s2);
    assert ok.None?;
    assert |alarm.ReadAll()| == 1 && Contains(alarm.ReadAll()[0], "Fault detected");
    assert |log.entries| == 1 && Contains(log.entries[0], "Fault detected");
  }
}
