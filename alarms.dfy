/** The alarm store of AlarmsService.cs: the `Alarms` class over the file
    alarm.txt and the static `Alarm` forwarder to a default instance. The file
    is an existence flag plus its lines; the timestamp of a raised alarm is an
    opaque string handed in by the caller. */
module AlarmService {
  import opened DotNet

  /** The line Raise writes: the bracketed timestamp, a space, the message. */
  function AlarmLine(stamp: string, message: string): (line: string)
    ensures |line| > |message|
    ensures Contains(line, message)
    ensures line[0] == '[' && !AllWhiteSpace(line)
    ensures line[|line| - |message|..] == message
  {
    var prefix := "[" + stamp + "] ";
    ContainsSuffix(prefix, message);
    assert !IsWhiteSpace((prefix + message)[0]);
    prefix + message
  }

  /** A message as Raise writes it: null is written as "". */
  function MessageText(message: Option<string>): (text: string)
    ensures message.Some? ==> text == message.value
    ensures message.None? ==> text == ""
  {
    if message.Some? then message.value else ""
  }

  /** The lines a reader sees: none when the file is missing. */
  function Visible(present: bool, lines: seq<string>): (r: seq<string>)
    ensures !present ==> r == []
    ensures present ==> r == lines
  {
    if present then lines else []
  }

  /** What AnyAlarms reports: true when no visible line has any text. */
  predicate NoAlarms(present: bool, lines: seq<string>)
  {
    !present || forall i :: 0 <= i < |lines| ==> AllWhiteSpace(lines[i])
  }

  // ---------------------------------------------------------------------
  // The filter inside Clear
  // ---------------------------------------------------------------------

  /** The lines that do not contain `m`, in their original order. */
  function Without(lines: seq<string>, m: string): (r: seq<string>)
    ensures |r| <= |lines|
    decreases |lines|
  {
    if lines == [] then []
    else (if Contains(lines[0], m) then [] else [lines[0]]) + Without(lines[1..], m)
  }

  /** A line survives the filter exactly when it was there and does not contain `m`. */
  lemma {:induction false} WithoutMembership(lines: seq<string>, m: string)
    ensures forall l :: l in Without(lines, m) <==> l in lines && !Contains(l, m)
    decreases |lines|
  {
    if lines != [] {
      WithoutMembership(lines[1..], m);
      assert lines == [lines[0]] + lines[1..];
    }
  }

  /** Filtering works piece by piece, so the order of the kept lines is the original order. */
  lemma {:induction false} WithoutAppend(a: seq<string>, b: seq<string>, m: string)
    ensures Without(a + b, m) == Without(a, m) + Without(b, m)
    decreases |a|
  {
    if a == [] {
      assert a + b == b;
    } else {
      WithoutAppend(a[1..], b, m);
      var head := if Contains(a[0], m) then [] else [a[0]];
      assert (a + b)[0] == a[0] && (a + b)[1..] == a[1..] + b;
      assert Without(a + b, m) == head + (Without(a[1..], m) + Without(b, m));
      assert Without(a, m) == head + Without(a[1..], m);
    }
  }

  /** The filter keeps every line exactly when no line contains `m`, and then it
      is the identity; it drops a line exactly when some line contains `m`. */
  lemma {:induction false} WithoutUnchangedIffNoMatch(lines: seq<string>, m: string)
    ensures Without(lines, m) == lines <==> forall i :: 0 <= i < |lines| ==> !Contains(lines[i], m)
    ensures |Without(lines, m)| == |lines| <==> Without(lines, m) == lines
    decreases |lines|
  {
    if lines != [] {
      WithoutUnchangedIffNoMatch(lines[1..], m);
      assert lines == [lines[0]] + lines[1..];
      if Contains(lines[0], m) {
        assert |Without(lines, m)| < |lines|;
      }
    }
  }

  /** Clearing the same pattern twice changes nothing the second time. */
  lemma WithoutIdempotent(lines: seq<string>, m: string)
    ensures Without(Without(lines, m), m) == Without(lines, m)
  {
    var r := Without(lines, m);
    WithoutMembership(lines, m);
    WithoutUnchangedIffNoMatch(r, m);
    assert forall i :: 0 <= i < |r| ==> !Contains(r[i], m) by {
      forall i | 0 <= i < |r| ensures !Contains(r[i], m) {
        assert r[i] in r;
      }
    }
  }

  /** The alarm test sequence KeepThis, RemoveThis, KeepThisToo cleared of
      "RemoveThis" keeps exactly the first and the third line, in order, and
      none of the kept lines contains the pattern. The timestamps must not
      themselves contain the pattern (a clock stamp never does). */
  lemma ClearRemovesMatchingLines(s1: string, s2: string, s3: string)
    requires !Contains(AlarmLine(s1, "KeepThis"), "RemoveThis")
    requires !Contains(AlarmLine(s3, "KeepThisToo"), "RemoveThis")
    ensures Without([AlarmLine(s1, "KeepThis"), AlarmLine(s2, "RemoveThis"), AlarmLine(s3, "KeepThisToo")], "RemoveThis")
            == [AlarmLine(s1, "KeepThis"), AlarmLine(s3, "KeepThisToo")]
    ensures var r := Without([AlarmLine(s1, "KeepThis"), AlarmLine(s2, "RemoveThis"), AlarmLine(s3, "KeepThisToo")], "RemoveThis");
            forall i :: 0 <= i < |r| ==> !Contains(r[i], "RemoveThis")
  {
    var lines := [AlarmLine(s1, "KeepThis"), AlarmLine(s2, "RemoveThis"), AlarmLine(s3, "KeepThisToo")];
    assert lines == [lines[0]] + [lines[1]] + [lines[2]];
    WithoutAppend([lines[0]] + [lines[1]], [lines[2]], "RemoveThis");
    WithoutAppend([lines[0]], [lines[1]], "RemoveThis");
    assert Without([lines[1]], "RemoveThis") == [];
  }

  /** A raised alarm is an alarm: after Raise, AnyAlarms reports false. */
  lemma RaisedAlarmIsVisible(lines: seq<string>, stamp: string, message: string)
    ensures !NoAlarms(true, lines + [AlarmLine(stamp, message)])
  {
    var all := lines + [AlarmLine(stamp, message)];
    assert !AllWhiteSpace(all[|all| - 1]);
  }

  /** Clearing a pattern that every line contains leaves no alarm. */
  lemma ClearingEveryLineLeavesNoAlarm(lines: seq<string>, m: string)
    requires forall i :: 0 <= i < |lines| ==> Contains(lines[i], m)
    ensures Without(lines, m) == []
    ensures NoAlarms(true, Without(lines, m))
  {
    WithoutMembership(lines, m);
  }

  // ---------------------------------------------------------------------
  // The file and the store
  // ---------------------------------------------------------------------

  /** The file alarm.txt: whether it present, and its lines. Every `Alarms`
      instance uses the same fixed path, so they all share one file. */
  class AlarmFile {
    var present: bool
    var lines: seq<string>

    constructor (present: bool, lines: seq<string>)
      ensures this.present == present && this.lines == lines
    {
      this.present := present;
      this.lines := lines;
    }
  }

  class Alarms {
    const file: AlarmFile

    constructor (file: AlarmFile)
      ensures this.file == file
    {
      this.file := file;
    }

    /** Raise: appends one line for the message (null written as ""), creating
        the file if it is missing; the lines already there stay as they were. */
    method Raise(message: Option<string>, stamp: string)
      modifies file
      ensures file.present
      ensures file.lines == Visible(old(file.present), old(file.lines)) + [AlarmLine(stamp, MessageText(message))]
    {
      var text := if message.None? then "" else message.value;
      var prior := if file.present then file.lines else [];
      file.present := true;
      file.lines := prior + [AlarmLine(stamp, text)];
    }

    /** ReadAll: the file's lines, or none when it does not exist. */
    function ReadAll(): (r: seq<string>)
      reads file
      ensures !file.present ==> r == []
      ensures file.present ==> r == file.lines
    {
      if !file.present then [] else file.lines
    }

    /** AnyAlarms: true when the file is missing or only has blank lines; it
        stops at the first line with text. (The name reads the opposite way;
        the source's own comment and tests agree on this meaning.) */
    method AnyAlarms() returns (r: bool)
      ensures r <==> NoAlarms(file.present, file.lines)
    {
      if !file.present {
        return true;
      }
      var lines := file.lines;
      var i := 0;
      while i < |lines|
        invariant 0 <= i <= |lines|
        invariant forall j :: 0 <= j < i ==> AllWhiteSpace(lines[j])
      {
        if !IsNullOrWhiteSpace(Some(lines[i])) {
          return false;
        }
        i := i + 1;
      }
      return true;
    }

    /** Clear: with a non-empty pattern and an existing file, keeps only the lines
        not containing the pattern, and rewrites the file only if that dropped a
        line; otherwise nothing changes. */
    method Clear(pattern: Option<string>)
      modifies file
      ensures file.present == old(file.present)
      ensures IsNullOrEmpty(pattern) || !old(file.present) ==> file.lines == old(file.lines)
      ensures !IsNullOrEmpty(pattern) && old(file.present) ==> file.lines == Without(old(file.lines), pattern.value)
    {
      if IsNullOrEmpty(pattern) {
        return;
      }
      if !file.present {
        return;
      }
      var lines := file.lines;
      var filtered := Without(lines, pattern.value);
      if |filtered| == |lines| {
        WithoutUnchangedIffNoMatch(lines, pattern.value);
        return;
      }
      file.lines := filtered;
    }

    /** ClearAlarms: the file present and is empty. */
    method ClearAlarms()
      modifies file
      ensures file.present && file.lines == []
    {
      file.present := true;
      file.lines := [];
    }
  }

  /** The static `Alarm` helper: every call goes to one default `Alarms`. */
  class Alarm {
    const default: Alarms

    constructor (file: AlarmFile)
      ensures default.file == file
    {
      default := new Alarms(file);
    }

    method Raise(message: Option<string>, stamp: string)
      modifies default.file
      ensures default.file.present
      ensures default.file.lines ==
              Visible(old(default.file.present), old(default.file.lines)) + [AlarmLine(stamp, MessageText(message))]
    {
      default.Raise(message, stamp);
    }

    method Clear(pattern: Option<string>)
      modifies default.file
      ensures default.file.present == old(default.file.present)
      ensures IsNullOrEmpty(pattern) || !old(default.file.present) ==> default.file.lines == old(default.file.lines)
      ensures !IsNullOrEmpty(pattern) && old(default.file.present) ==>
                default.file.lines == Without(old(default.file.lines), pattern.value)
    {
      default.Clear(pattern);
    }

    function ReadAll(): (r: seq<string>)
      reads default, default.file
      ensures r == Visible(default.file.present, default.file.lines)
    {
      default.ReadAll()
    }

    method AnyAlarms() returns (r: bool)
      ensures r <==> NoAlarms(default.file.present, default.file.lines)
    {
      r := default.AnyAlarms();
    }

    method ClearAlarms()
      modifies default.file
      ensures default.file.present && default.file.lines == []
    {
      default.ClearAlarms();
    }
  }

  /** The alarm tests through the static helper, starting from a missing file. */
  method AlarmScenarios(s1: string, s2: string, s3: string)
  {
    var file := new AlarmFile(false, []);
    var alarm := new Alarm(file);
    var none := alarm.AnyAlarms();
    assert none;
    assert alarm.ReadAll() == [];

    alarm.Raise(Some("First"), s1);
    alarm.Raise(Some("Second"), s2);
    assert |alarm.ReadAll()| == 2;
    assert Contains(alarm.ReadAll()[0], "First") && Contains(alarm.ReadAll()[1], "Second");
    RaisedAlarmIsVisible([AlarmLine(s1, "First")], s2, "Second");
    var some := alarm.AnyAlarms();
    assert !some;

    var before := alarm.ReadAll();
    alarm.Clear(None);
    alarm.Clear(Some(""));
    assert alarm.ReadAll() == before;

    alarm.ClearAlarms();
    assert alarm.ReadAll() == [];
    var cleared := alarm.AnyAlarms();
    assert cleared;
  }
}
