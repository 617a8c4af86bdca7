/** The logging facility of logging/log.go: each line gets a prefix
      [<level> <date>-<time> <pid> <file>:<line>] <message>
    and is appended to a log file whose name carries the current date; the
    file is reopened under a new name once the clock passes midnight.
    The clock, the process id, the caller's frame, `fmt.Sprintf` and the
    file system's answers are parameters. */
module Logging {
  import opened Outcome
  import opened Decimal

  // ------------------------------------------------------------------ levels

  datatype LogLevel = Info | Warn | Error

  /** The `levelName` table. */
  function LevelName(level: LogLevel): (name: string)
    ensures |name| > 0 && forall i :: 0 <= i < |name| ==> 'A' <= name[i] <= 'Z'
  {
    match level
    case Info => "INFO"
    case Warn => "WARN"
    case Error => "ERROR"
  }

  // ------------------------------------------------------ string searching

  /** Index of the last `c` in `s`, or -1 when there is none
      (`strings.LastIndex` with a one-character separator). */
  function LastIndexOf(s: string, c: char): (k: int)
    ensures -1 <= k < |s|
    ensures k >= 0 ==> s[k] == c
    ensures forall i :: k < i < |s| ==> s[i] != c
  {
    if s == [] then -1
    else if s[|s| - 1] == c then |s| - 1
    else LastIndexOf(s[..|s| - 1], c)
  }

  /** Go's `filepath.Ext` on a '/'-separated path: scanning back from the end
      and stopping at the first separator, the suffix that starts at a '.'. */
  function Ext(path: string): (ext: string)
    ensures |ext| <= |path| && path[|path| - |ext|..] == ext
  {
    if path == [] || path[|path| - 1] == '/' then ""
    else if path[|path| - 1] == '.' then path[|path| - 1..]
    else
      var e := Ext(path[..|path| - 1]);
      if e == "" then "" else e + [path[|path| - 1]]
  }

  /** The extension is the suffix from the final dot of the last path
      element, and empty when that element has no dot. */
  lemma {:induction false} ExtIsFinalDotSuffix(path: string)
    ensures var dot, slash := LastIndexOf(path, '.'), LastIndexOf(path, '/');
            Ext(path) == if dot > slash then path[dot..] else ""
  {
    if path != [] && path[|path| - 1] != '/' && path[|path| - 1] != '.' {
      var init := path[..|path| - 1];
      ExtIsFinalDotSuffix(init);
      assert LastIndexOf(path, '.') == LastIndexOf(init, '.');
      assert LastIndexOf(path, '/') == LastIndexOf(init, '/');
      var dot := LastIndexOf(init, '.');
      if dot > LastIndexOf(init, '/') {
        assert init[dot..] + [path[|path| - 1]] == path[dot..];
      }
    }
  }

  // ------------------------------------------------------------ caller info

  /** What `runtime.Caller` reports: whether the frame is known, its file and line. */
  datatype CallerFrame = CallerFrame(ok: bool, file: string, line: int)

  /** `callerFileInfo`: the base name of the caller's file and its line. */
  function CallerFileInfo(frame: CallerFrame): (info: (string, int))
    ensures !frame.ok ==> info == ("<unknown>", 1)
    ensures frame.ok ==> info.1 == frame.line
    ensures frame.ok ==> |info.0| <= |frame.file| && frame.file[|frame.file| - |info.0|..] == info.0
    ensures frame.ok ==> '/' !in info.0
    ensures frame.ok && '/' !in frame.file ==> info.0 == frame.file
    ensures frame.ok && '/' in frame.file ==> frame.file[|frame.file| - |info.0| - 1] == '/'
  {
    if !frame.ok then ("<unknown>", 1)
    else
      var slash := LastIndexOf(frame.file, '/');
      var file := if slash >= 0 then frame.file[slash + 1..] else frame.file;
      assert forall i :: 0 <= i < |file| ==> file[i] == frame.file[|frame.file| - |file| + i];
      (file, frame.line)
  }

  // ------------------------------------------------------------- line layout

  /** `linePrefix`; `stamp` is the clock formatted as "0102-15:04:05". */
  function LinePrefix(level: LogLevel, stamp: string, pid: int, frame: CallerFrame): (prefix: string)
    ensures |prefix| >= 2 && prefix[0] == '[' && prefix[|prefix| - 2..] == "] "
  {
    "[" + LevelName(level) + " " + PrefixFields(stamp, pid, frame)
  }

  /** What follows the level in the prefix: "<date> <pid> <file>:<line>] ". */
  function PrefixFields(stamp: string, pid: int, frame: CallerFrame): (fields: string)
    ensures |fields| >= 2 && fields[|fields| - 2..] == "] "
  {
    var (file, line) := CallerFileInfo(frame);
    stamp + " " + IntToString(pid) + " " + file + ":" + IntToString(line) + "] "
  }

  /** The fields read back: the stamp is the first word, the pid the second,
      the line number sits between the last ':' and the closing "] ", and the
      file name between the pid and that ':'. */
  lemma PrefixFieldsReadBack(stamp: string, pid: int, frame: CallerFrame)
    requires ' ' !in stamp
    ensures var fields, info := PrefixFields(stamp, pid, frame), CallerFileInfo(frame);
            var colon := LastIndexOf(fields, ':');
            && FirstWord(fields) == stamp
            && FirstWord(fields[|stamp| + 1..]) == IntToString(pid)
            && |stamp| + |IntToString(pid)| + 2 <= colon < |fields| - 2
            && fields[|stamp| + |IntToString(pid)| + 2..colon] == info.0
            && fields[colon + 1..|fields| - 2] == IntToString(info.1)
  {
    var info := CallerFileInfo(frame);
    var p, l := IntToString(pid), IntToString(info.1);
    NumberHasNoSeparator(pid);
    NumberHasNoSeparator(info.1);
    assert PrefixFields(stamp, pid, frame) == stamp + " " + p + " " + info.0 + ":" + l + "] ";
    FieldsReadBack(stamp, p, info.0, l);
  }

  /** A printed number holds neither of the separators the prefix uses. */
  lemma NumberHasNoSeparator(i: int)
    ensures ' ' !in IntToString(i) && ':' !in IntToString(i)
  {
    var s := IntToString(i);
    assert forall k :: 0 <= k < |s| ==> s[k] != ' ' && s[k] != ':';
  }

  /** The same for any words: `stamp` and `p` without spaces, `l` without ':'. */
  lemma FieldsReadBack(stamp: string, p: string, file: string, l: string)
    requires ' ' !in stamp && ' ' !in p && ':' !in l
    ensures var fields := stamp + " " + p + " " + file + ":" + l + "] ";
            var colon := LastIndexOf(fields, ':');
            && FirstWord(fields) == stamp
            && FirstWord(fields[|stamp| + 1..]) == p
            && colon == |stamp| + |p| + 2 + |file|
            && fields[|stamp| + |p| + 2..colon] == file
            && fields[colon + 1..|fields| - 2] == l
  {
    var fields := stamp + " " + p + " " + file + ":" + l + "] ";
    var head := stamp + " " + p + " " + file;
    var tail := l + "] ";
    assert fields == head + [':'] + tail;
    assert ':' !in tail;
    LastIndexAfter(head, ':', tail);
    var afterPid := file + ":" + l + "] ";
    assert fields == stamp + " " + (p + " " + afterPid);
    FirstWordOf(stamp, p + " " + afterPid);
    assert fields[|stamp| + 1..] == p + " " + afterPid;
    FirstWordOf(p, afterPid);
    assert fields[|stamp| + |p| + 2..|head|] == file;
    assert fields[|head| + 1..|fields| - 2] == l;
  }

  /** The last `c` of `head + [c] + tail` is the one after `head` when `tail` has none. */
  lemma {:induction false} LastIndexAfter(head: string, c: char, tail: string)
    requires c !in tail
    ensures LastIndexOf(head + [c] + tail, c) == |head|
  {
    var s := head + [c] + tail;
    if tail == [] {
      assert s[|s| - 1] == c;
    } else {
      var front := tail[..|tail| - 1];
      assert s[|s| - 1] == tail[|tail| - 1];
      assert s[..|s| - 1] == head + [c] + front;
      LastIndexAfter(head, c, front);
    }
  }

  lemma FirstWordOf(w: string, rest: string)
    requires ' ' !in w
    ensures FirstWord(w + " " + rest) == w
  {
    var s := w + " " + rest;
    assert forall i :: 0 <= i < |w| ==> s[i] == w[i];
    FirstWordUpTo(s, |w|);
    assert s[..|w|] == w;
  }

  /** The leading run of non-space characters. */
  function FirstWord(s: string): string {
    if s == [] || s[0] == ' ' then [] else [s[0]] + FirstWord(s[1..])
  }

  /** Reads the level back from the start of a log line. */
  function LevelOfLine(line: string): Option<LogLevel> {
    if |line| == 0 || line[0] != '[' then None
    else
      var word := FirstWord(line[1..]);
      if word == "INFO" then Some(Info)
      else if word == "WARN" then Some(Warn)
      else if word == "ERROR" then Some(Error)
      else None
  }

  lemma {:induction false} FirstWordUpTo(s: string, k: nat)
    requires k < |s| && s[k] == ' '
    requires forall i :: 0 <= i < k ==> s[i] != ' '
    ensures FirstWord(s) == s[..k]
  {
    if k > 0 {
      FirstWordUpTo(s[1..], k - 1);
      assert s[..k] == [s[0]] + s[1..][..k - 1];
    }
  }

  lemma LevelOfBracketed(level: LogLevel, rest: string)
    ensures LevelOfLine("[" + LevelName(level) + " " + rest) == Some(level)
  {
    var name := LevelName(level);
    assert ("[" + name + " " + rest)[1..] == name + " " + rest;
    FirstWordUpTo(name + " " + rest, |name|);
  }

  /** Every written line names its level right after the opening bracket. */
  lemma LevelOfPrefixedLine(level: LogLevel, stamp: string, pid: int, frame: CallerFrame, body: string)
    ensures LevelOfLine(LinePrefix(level, stamp, pid, frame) + body) == Some(level)
  {
    var rest := PrefixFields(stamp, pid, frame) + body;
    assert LinePrefix(level, stamp, pid, frame) + body == "[" + LevelName(level) + " " + rest;
    LevelOfBracketed(level, rest);
  }

  // ---------------------------------------------------------- message body

  /** An operand of `Info(args...)`: a Go string, or any other value by its default format. */
  datatype Arg = StrArg(s: string) | ValueArg(text: string) {
    function Text(): string {
      match this
      case StrArg(s) => s
      case ValueArg(t) => t
    }
  }

  datatype Message = Message(format: string, args: seq<Arg>)

  /** `fmt.Sprintf`, whose verbs are not part of this model. */
  type Formatter = (string, seq<Arg>) -> string

  /** `fmt.Fprint`'s operand joining: a space goes between two operands when
      neither is a string. */
  function SprintFrom(args: seq<Arg>, prevString: bool): (s: string)
    // operands that are all non-strings get one space each, when the one before is not a string either
    ensures (forall i :: 0 <= i < |args| ==> !args[i].StrArg?) && !prevString ==>
              |s| == |Concat(args)| + |args|
  {
    if args == [] then ""
    else
      (if !args[0].StrArg? && !prevString then " " else "")
      + args[0].Text() + SprintFrom(args[1..], args[0].StrArg?)
  }

  /** `fmt.Sprint`: no space before the first operand. */
  function Sprint(args: seq<Arg>): (s: string)
    ensures (forall i :: 0 <= i < |args| ==> !args[i].StrArg?) && |args| > 0 ==>
              |s| == |Concat(args)| + |args| - 1
  {
    SprintFrom(args, true)
  }

  /** Plain concatenation of the operands' texts. */
  function Concat(args: seq<Arg>): string {
    if args == [] then "" else args[0].Text() + Concat(args[1..])
  }

  lemma {:induction false} SprintFromStrings(args: seq<Arg>, prevString: bool)
    requires forall i :: 0 <= i < |args| ==> args[i].StrArg?
    ensures SprintFrom(args, prevString) == Concat(args)
  {
    if args != [] {
      SprintFromStrings(args[1..], true);
    }
  }

  /** With string operands only, the unformatted body is their concatenation. */
  lemma SprintOfStrings(args: seq<Arg>)
    requires forall i :: 0 <= i < |args| ==> args[i].StrArg?
    ensures Sprint(args) == Concat(args)
  {
    SprintFromStrings(args, true);
  }

  /** The message body: the format when there is one, plain printing otherwise. */
  function Body(msg: Message, sprintf: Formatter): (body: string)
    ensures |msg.format| > 0 ==> body == sprintf(msg.format, msg.args)
    ensures |msg.format| == 0 ==> body == Sprint(msg.args)
  {
    if |msg.format| > 0 then sprintf(msg.format, msg.args) else Sprint(msg.args)
  }

  /** Without a format, string operands are joined with nothing between them. */
  lemma BodyOfStrings(msg: Message, sprintf: Formatter)
    requires |msg.format| == 0 && forall i :: 0 <= i < |msg.args| ==> msg.args[i].StrArg?
    ensures Body(msg, sprintf) == Concat(msg.args)
  {
    SprintOfStrings(msg.args);
  }

  /** `writeOut`'s newline rule. */
  function Terminated(message: string): (text: string)
    requires |message| > 0
    ensures |text| > 0 && text[|text| - 1] == '\n'
    ensures |text| == |message| + (if message[|message| - 1] == '\n' then 0 else 1)
    ensures text[..|message|] == message
  {
    if message[|message| - 1] != '\n' then message + "\n" else message
  }

  /** A terminated line gets no second newline. */
  lemma TerminatedIdempotent(message: string)
    requires |message| > 0
    ensures Terminated(Terminated(message)) == Terminated(message)
  {
  }

  // ------------------------------------------------------------ calendar

  datatype Date = Date(year: int, month: int, day: int)

  predicate IsLeapYear(y: int) {
    y % 4 == 0 && (y % 100 != 0 || y % 400 == 0)
  }

  function DaysInMonth(year: int, month: int): int
    requires 1 <= month <= 12
  {
    if month == 2 then (if IsLeapYear(year) then 29 else 28)
    else if month == 4 || month == 6 || month == 9 || month == 11 then 30
    else 31
  }

  predicate ValidDate(d: Date) {
    d.year >= 1 && 1 <= d.month <= 12 && 1 <= d.day <= DaysInMonth(d.year, d.month)
  }

  predicate DateBefore(a: Date, b: Date) {
    a.year < b.year || (a.year == b.year && (a.month < b.month || (a.month == b.month && a.day < b.day)))
  }

  /** The calendar day after `d` (what `AddDate(0, 0, 1)` normalises to). */
  function NextDay(d: Date): (next: Date)
    requires ValidDate(d)
    ensures ValidDate(next) && DateBefore(d, next)
  {
    if d.day < DaysInMonth(d.year, d.month) then d.(day := d.day + 1)
    else if d.month < 12 then Date(d.year, d.month + 1, 1)
    else Date(d.year + 1, 1, 1)
  }

  /** No valid date lies strictly between a date and the next one. */
  lemma NextDayIsSuccessor(d: Date, e: Date)
    requires ValidDate(d) && ValidDate(e) && DateBefore(d, e)
    ensures !DateBefore(e, NextDay(d))
  {
  }

  const NanosPerDay: int := 86_400_000_000_000

  /** A point in local civil time: a date and the nanoseconds since its midnight. */
  datatype Instant = Instant(date: Date, nanos: int)

  predicate ValidInstant(t: Instant) {
    ValidDate(t.date) && 0 <= t.nanos < NanosPerDay
  }

  /** Go's `a.After(b)`. */
  predicate After(a: Instant, b: Instant) {
    DateBefore(b.date, a.date) || (a.date == b.date && a.nanos > b.nanos)
  }

  /** Go's zero `time.Time`: January 1 of year 1, midnight. */
  const ZeroTime: Instant := Instant(Date(1, 1, 1), 0)

  /** `nextRotationTime`: midnight at the start of the day after `now`. */
  function NextRotationTime(now: Instant): (t: Instant)
    requires ValidInstant(now)
    ensures ValidInstant(t) && t.nanos == 0 && After(t, now)
  {
    Instant(NextDay(now.date), 0)
  }

  /** The rotation time is the first midnight after `now`. */
  lemma NextRotationIsFirstMidnight(now: Instant, m: Instant)
    requires ValidInstant(now) && ValidInstant(m) && m.nanos == 0 && After(m, now)
    ensures !After(NextRotationTime(now), m)
  {
    if DateBefore(now.date, m.date) {
      NextDayIsSuccessor(now.date, m.date);
    }
  }

  // ------------------------------------------------------------- file name

  function DateTag(d: Date): string {
    "-" + IntToString(d.year) + "-" + IntToString(d.month) + "-" + IntToString(d.day)
  }

  /** `filename`: the date tag goes between the path and its extension. */
  function LogFileName(filePath: string, date: Date): (name: string)
    ensures |name| == |filePath| + |DateTag(date)|
  {
    var ext := Ext(filePath);
    filePath[..|filePath| - |ext|] + DateTag(date) + ext
  }

  /** Taking the date tag out of a log file name gives back the configured path. */
  lemma LogFileNameParts(filePath: string, date: Date)
    ensures var name, ext := LogFileName(filePath, date), Ext(filePath);
            && |name| == |filePath| + |DateTag(date)|
            && name[..|filePath| - |ext|] + name[|name| - |ext|..] == filePath
            && name[|filePath| - |ext|..|name| - |ext|] == DateTag(date)
  {
    var ext := Ext(filePath);
    var base := filePath[..|filePath| - |ext|];
    assert LogFileName(filePath, date) == base + DateTag(date) + ext;
    SplicedParts(base, DateTag(date), ext);
    assert base + ext == filePath;
  }

  lemma SplicedParts(base: string, tag: string, ext: string)
    ensures var name := base + tag + ext;
            && name[..|base|] + name[|name| - |ext|..] == base + ext
            && name[|base|..|name| - |ext|] == tag
  {
    var name := base + tag + ext;
    assert name[..|base|] == base;
    assert name[|name| - |ext|..] == ext;
  }

  /** Index of the first '-' in `s`, or |s|. */
  function FirstDash(s: string): nat {
    if s == [] then 0 else if s[0] == '-' then 0 else 1 + FirstDash(s[1..])
  }

  lemma {:induction false} FirstDashAfterDigits(a: string, b: string)
    requires AllDigits(a)
    ensures FirstDash(a + "-" + b) == |a|
  {
    if a != [] {
      assert (a + "-" + b)[1..] == a[1..] + "-" + b;
      FirstDashAfterDigits(a[1..], b);
    } else {
      assert (a + "-" + b)[0] == '-';
    }
  }

  lemma SplitAtDash(a: string, b: string, a2: string, b2: string)
    requires AllDigits(a) && AllDigits(a2)
    requires a + "-" + b == a2 + "-" + b2
    ensures a == a2 && b == b2
  {
    var s := a + "-" + b;
    FirstDashAfterDigits(a, b);
    FirstDashAfterDigits(a2, b2);
    assert a == s[..|a|];
    assert a2 == (a2 + "-" + b2)[..|a2|];
    assert b == s[|a| + 1..];
    assert b2 == (a2 + "-" + b2)[|a2| + 1..];
  }

  lemma DateTagFields(d: Date)
    requires ValidDate(d)
    ensures DateTag(d)[1..] ==
            NatToString(d.year) + "-" + (NatToString(d.month) + "-" + NatToString(d.day))
  {
    var y, m, x := NatToString(d.year), NatToString(d.month), NatToString(d.day);
    assert DateTag(d) == "-" + (y + "-" + (m + "-" + x));
  }

  lemma DateTagInjective(d1: Date, d2: Date)
    requires ValidDate(d1) && ValidDate(d2)
    requires DateTag(d1) == DateTag(d2)
    ensures d1 == d2
  {
    var y1, m1, x1 := NatToString(d1.year), NatToString(d1.month), NatToString(d1.day);
    var y2, m2, x2 := NatToString(d2.year), NatToString(d2.month), NatToString(d2.day);
    DateTagFields(d1);
    DateTagFields(d2);
    SplitAtDash(y1, m1 + "-" + x1, y2, m2 + "-" + x2);
    SplitAtDash(m1, x1, m2, x2);
    NatToStringInjective(d1.year, d2.year);
    NatToStringInjective(d1.month, d2.month);
    NatToStringInjective(d1.day, d2.day);
  }

  /** Different days get different log files. */
  lemma LogFileNameInjective(filePath: string, d1: Date, d2: Date)
    requires ValidDate(d1) && ValidDate(d2)
    requires LogFileName(filePath, d1) == LogFileName(filePath, d2)
    ensures d1 == d2
  {
    var n := LogFileName(filePath, d1);
    var ext := Ext(filePath);
    LogFileNameParts(filePath, d1);
    LogFileNameParts(filePath, d2);
    assert DateTag(d1) == n[|filePath| - |ext|..|n| - |ext|] == DateTag(d2);
    DateTagInjective(d1, d2);
  }

  // ------------------------------------------------------------ logger state

  /** The fields of `Logger`, with the file system reduced to what this
      logger appended to each file. */
  datatype LoggerState = LoggerState(
    filePath: string,
    toStdout: bool,
    nextRotation: Instant,
    current: Option<string>,       // the open file's name; None while `file` is nil
    files: map<string, string>,    // the text appended to each log file
    stdout: string)                // the text written to standard output

  predicate ValidState(s: LoggerState) {
    ValidInstant(s.nextRotation) && (s.current.Some? ==> s.current.value in s.files)
  }

  /** The global logger after `init`. */
  const InitialState: LoggerState := LoggerState("proxy.log", false, ZeroTime, None, map[], "")

  /** The files after opening `name` with O_CREATE|O_APPEND: existing text is kept. */
  function Created(files: map<string, string>, name: string): map<string, string> {
    if name in files then files else files[name := ""]
  }

  /** `openFile`; `open` is the answer of `os.OpenFile`. */
  function OpenFileStep(s: LoggerState, now: Instant, open: Status): (r: (LoggerState, Status))
    requires ValidInstant(now)
    ensures r.1 == open
    ensures r.0.filePath == s.filePath && r.0.toStdout == s.toStdout && r.0.stdout == s.stdout
    ensures open.Failure? ==> r.0 == s.(current := None)
    ensures open.Success? ==>
              && ValidState(r.0)
              && r.0.current == Some(LogFileName(s.filePath, now.date))
              && r.0.files == Created(s.files, LogFileName(s.filePath, now.date))
              && r.0.nextRotation == NextRotationTime(now)
  {
    var name := LogFileName(s.filePath, now.date);
    if open.Failure? then (s.(current := None), open)
    else
      (s.(current := Some(name),
          files := Created(s.files, name),
          nextRotation := NextRotationTime(now)),
       Success)
  }

  /** `rotateFiles`: close the file, then open it afresh. */
  function RotateStep(s: LoggerState, now: Instant, open: Status): (r: (LoggerState, Status))
    requires ValidInstant(now)
    ensures r.1 == open
    ensures r.0.filePath == s.filePath && r.0.toStdout == s.toStdout && r.0.stdout == s.stdout
    ensures open.Failure? ==> r.0 == s.(current := None)
    ensures open.Success? ==>
              && ValidState(r.0)
              && r.0.current == Some(LogFileName(s.filePath, now.date))
              && r.0.files == Created(s.files, LogFileName(s.filePath, now.date))
              && r.0.nextRotation == NextRotationTime(now)
  {
    OpenFileStep(s.(current := None), now, open)
  }

  /** `writeOut`: the same terminated text to the file and, when enabled, to stdout. */
  function WriteOutStep(s: LoggerState, message: string): (r: (LoggerState, int))
    requires ValidState(s) && s.current.Some? && |message| > 0
    ensures ValidState(r.0) && r.1 == |message|
    ensures r.0.filePath == s.filePath && r.0.toStdout == s.toStdout
    ensures r.0.current == s.current && r.0.nextRotation == s.nextRotation
    ensures r.0.files.Keys == s.files.Keys
    ensures r.0.files[s.current.value] == s.files[s.current.value] + Terminated(message)
    ensures forall f :: f in s.files && f != s.current.value ==> r.0.files[f] == s.files[f]
    ensures r.0.stdout == s.stdout + (if s.toStdout then Terminated(message) else "")
  {
    var text := Terminated(message);
    var name := s.current.value;
    (s.(files := s.files[name := s.files[name] + text],
        stdout := if s.toStdout then s.stdout + text else s.stdout),
     |message|)
  }

  /** The inputs of one `output` call that come from the environment. The
      clock is read once: `now` stands for every `time.Now()` of the call. */
  datatype OutputEnv = OutputEnv(
    now: Instant, stamp: string, pid: int, frame: CallerFrame,
    open: Status,          // the answer of the one `os.OpenFile` the call may make
    sprintf: Formatter)

  datatype Written = Written(state: LoggerState, count: int, status: Status)

  /** `fmt.Println(err)` */
  function PrintError(s: LoggerState, err: string): LoggerState {
    s.(stdout := s.stdout + err + "\n")
  }

  /** The line `output` writes. */
  function Line(level: LogLevel, msg: Message, env: OutputEnv): string {
    LinePrefix(level, env.stamp, env.pid, env.frame) + Body(msg, env.sprintf)
  }

  /** The first half of `output`: open when no file is open, then rotate
      when `now` is past the rotation time. */
  function PrepareStep(s: LoggerState, now: Instant, open: Status): (r: (LoggerState, Status))
    requires ValidState(s) && ValidInstant(now)
    ensures ValidState(r.0)
    ensures r.0.filePath == s.filePath && r.0.toStdout == s.toStdout && r.0.stdout == s.stdout
    ensures r.1.Failure? ==> r.0.current.None? && r.0.files == s.files && r.0.nextRotation == s.nextRotation
    ensures r.1.Success? ==>
              && r.0.current.Some?
              && r.0.files == Created(s.files, r.0.current.value)
  {
    var (s1, st1) := if s.current.None? then OpenFileStep(s, now, open) else (s, Success);
    if st1.Failure? then (s1, st1)
    else if After(now, s1.nextRotation) then RotateStep(s1, now, open)
    else (s1, Success)
  }

  /** `output`: prepare the file, then write the prefixed line. */
  function OutputStep(s: LoggerState, level: LogLevel, msg: Message, env: OutputEnv): (r: Written)
    requires ValidState(s) && ValidInstant(env.now)
    ensures ValidState(r.state)
  {
    var (s1, st) := PrepareStep(s, env.now, env.open);
    if st.Failure? then Written(PrintError(s1, st.error), 0, st)
    else
      var (s2, n) := WriteOutStep(s1, Line(level, msg, env));
      Written(s2, n, Success)
  }

  /** Whether `output` has to open a file: when none is open, or when the clock is past the rotation time. */
  predicate MustOpen(s: LoggerState, now: Instant) {
    s.current.None? || After(now, s.nextRotation)
  }

  /** An open file before the rotation time is kept; otherwise the call opens
      (at most once) the file named for today, and a successful open moves the
      rotation time to the next midnight. */
  lemma OutputOpensOnlyWhenDue(s: LoggerState, level: LogLevel, msg: Message, env: OutputEnv)
    requires ValidState(s) && ValidInstant(env.now)
    ensures var r := OutputStep(s, level, msg, env);
            && (!MustOpen(s, env.now) ==>
                  r.state.current == s.current && r.state.nextRotation == s.nextRotation && r.status.Success?)
            && (MustOpen(s, env.now) && r.status.Success? ==>
                  && r.state.current == Some(LogFileName(s.filePath, env.now.date))
                  && r.state.nextRotation == NextRotationTime(env.now)
                  && After(r.state.nextRotation, env.now))
  {
    OutputKeepsPrepared(s, level, msg, env);
    PrepareOpensOnlyWhenDue(s, env.now, env.open);
  }

  /** Writing the line changes neither the open file nor the rotation time. */
  lemma OutputKeepsPrepared(s: LoggerState, level: LogLevel, msg: Message, env: OutputEnv)
    requires ValidState(s) && ValidInstant(env.now)
    ensures var r, p := OutputStep(s, level, msg, env), PrepareStep(s, env.now, env.open);
            && r.status == p.1
            && r.state.current == p.0.current
            && r.state.nextRotation == p.0.nextRotation
  {
  }

  lemma PrepareOpensOnlyWhenDue(s: LoggerState, now: Instant, open: Status)
    requires ValidState(s) && ValidInstant(now)
    ensures var p := PrepareStep(s, now, open);
            && (!MustOpen(s, now) ==> p.0.current == s.current && p.0.nextRotation == s.nextRotation && p.1.Success?)
            && (MustOpen(s, now) && p.1.Success? ==>
                  && p.0.current == Some(LogFileName(s.filePath, now.date))
                  && p.0.nextRotation == NextRotationTime(now))
  {
  }

  /** A failed open or rotation writes nothing to any log file and returns (0, err). */
  lemma OutputFailureWritesNothing(s: LoggerState, level: LogLevel, msg: Message, env: OutputEnv)
    requires ValidState(s) && ValidInstant(env.now)
    ensures var r := OutputStep(s, level, msg, env);
            && (r.status.Failure? <==> MustOpen(s, env.now) && env.open.Failure?)
            && (r.status.Failure? ==>
                  && r.status == env.open && r.count == 0
                  && r.state.files == s.files && r.state.current.None?
                  && r.state.nextRotation == s.nextRotation
                  && r.state.stdout == s.stdout + env.open.error + "\n")
  {
  }

  /** Appending to a file just opened with `Created` leaves every other file as it was. */
  lemma AppendAfterCreate(files: map<string, string>, name: string, text: string)
    ensures var m := Created(files, name);
            var u := m[name := m[name] + text];
            && u.Keys == files.Keys + {name}
            && u[name] == (if name in files then files[name] else "") + text
            && forall f :: f in files && f != name ==> u[f] == files[f]
  {
    var m := Created(files, name);
    var u := m[name := m[name] + text];
    assert u.Keys == m.Keys;
  }

  /** A successful call appends the terminated line to the open file and
      only to it, and the copy on stdout is the same text. */
  lemma OutputSuccessAppendsLine(s: LoggerState, level: LogLevel, msg: Message, env: OutputEnv)
    requires ValidState(s) && ValidInstant(env.now)
    ensures var r := OutputStep(s, level, msg, env);
            var text := Terminated(Line(level, msg, env));
            r.status.Success? ==>
              && r.state.current.Some?
              && var name := r.state.current.value;
              && r.count == |Line(level, msg, env)|
              && r.state.files[name] == (if name in s.files then s.files[name] else "") + text
              && (forall f :: f in s.files && f != name ==> r.state.files[f] == s.files[f])
              && r.state.files.Keys == s.files.Keys + {name}
              && r.state.stdout == s.stdout + (if s.toStdout then text else "")
              && text[|text| - 1] == '\n'
  {
    var p := PrepareStep(s, env.now, env.open);
    if p.1.Success? {
      var name := p.0.current.value;
      var text := Terminated(Line(level, msg, env));
      AppendAfterCreate(s.files, name, text);
    }
  }

  /** Rotating after midnight starts a new file: it never appends to the file
      named for an earlier day. */
  lemma RotationStartsNewFile(s: LoggerState, level: LogLevel, msg: Message, env: OutputEnv, day: Date)
    requires ValidState(s) && ValidInstant(env.now) && ValidDate(day)
    requires s.current == Some(LogFileName(s.filePath, day)) && DateBefore(day, env.now.date)
    requires After(env.now, s.nextRotation)
    ensures var r := OutputStep(s, level, msg, env);
            r.status.Success? ==> r.state.current.Some? && r.state.current != s.current
  {
    var r := OutputStep(s, level, msg, env);
    if r.status.Success? && r.state.current == s.current {
      assert LogFileName(s.filePath, env.now.date) == LogFileName(s.filePath, day);
      LogFileNameInjective(s.filePath, env.now.date, day);
    }
  }

  // ------------------------------------------------------------ the logger

  /** `Logger`, whose fields `file` and `nextRotation` change in place. */
  class Logger {
    var filePath: string
    var toStdout: bool
    var nextRotation: Instant
    var current: Option<string>
    var files: map<string, string>
    var stdout: string

    function State(): LoggerState
      reads this
    {
      LoggerState(filePath, toStdout, nextRotation, current, files, stdout)
    }

    ghost predicate Valid()
      reads this
    {
      ValidState(State())
    }

    /** The package's global logger as `init` leaves it. */
    constructor ()
      ensures Valid() && State() == InitialState
    {
      filePath := "proxy.log";
      toStdout := false;
      nextRotation := ZeroTime;
      current := None;
      files := map[];
      stdout := "";
    }

    method SetLogfileName(path: string)
      requires Valid()
      modifies this
      ensures Valid() && State() == old(State()).(filePath := path)
    {
      filePath := path;
    }

    method SetLogToStdout(value: bool)
      requires Valid()
      modifies this
      ensures Valid() && State() == old(State()).(toStdout := value)
    {
      toStdout := value;
    }

    method OpenFile(now: Instant, open: Status) returns (err: Status)
      requires Valid() && ValidInstant(now)
      modifies this
      ensures Valid()
      ensures (State(), err) == OpenFileStep(old(State()), now, open)
    {
      var path := LogFileName(filePath, now.date);
      if open.Failure? {
        current := None;
        err := open;
        return;
      }
      current := Some(path);
      if path !in files {
        files := files[path := ""];
      }
      nextRotation := NextRotationTime(now);
      err := Success;
    }

    method RotateFiles(now: Instant, open: Status) returns (err: Status)
      requires Valid() && ValidInstant(now)
      modifies this
      ensures Valid()
      ensures (State(), err) == RotateStep(old(State()), now, open)
    {
      current := None;
      err := OpenFile(now, open);
    }

    method WriteOut(message: string) returns (written: int)
      requires Valid() && current.Some? && |message| > 0
      modifies this
      ensures Valid()
      ensures (State(), written) == WriteOutStep(old(State()), message)
    {
      var needNewline := message[|message| - 1] != '\n';
      if toStdout {
        stdout := stdout + message;
        if needNewline {
          stdout := stdout + "\n";
          assert stdout == old(stdout) + (message + "\n");
        }
      }
      var name := current.value;
      ghost var before := files;
      files := files[name := files[name] + message];
      if needNewline {
        files := files[name := files[name] + "\n"];
        assert files[name] == before[name] + message + "\n" == before[name] + (message + "\n");
        assert files == before[name := before[name] + (message + "\n")];
      }
      written := |message|;
      assert files == before[name := before[name] + Terminated(message)];
    }

    method Output(level: LogLevel, msg: Message, env: OutputEnv) returns (written: int, err: Status)
      requires Valid() && ValidInstant(env.now)
      modifies this
      ensures Valid()
      ensures Written(State(), written, err) == OutputStep(old(State()), level, msg, env)
    {
      if current.None? {
        err := OpenFile(env.now, env.open);
        if err.Failure? {
          stdout := stdout + err.error + "\n";
          written := 0;
          return;
        }
      }
      if After(env.now, nextRotation) {
        err := RotateFiles(env.now, env.open);
        if err.Failure? {
          stdout := stdout + err.error + "\n";
          written := 0;
          return;
        }
      }
      var message := LinePrefix(level, env.stamp, env.pid, env.frame) + Body(msg, env.sprintf);
      written := WriteOut(message);
      err := Success;
    }
  }
}
