/**
  The levelled logger: every message at or above the logger's level is
  written as one coloured line to the console and one plain line to the
  log file, after which the file is rotated once it has grown past its
  size limit.

  The clock, the caller lookup, the file's size and the outcome of each
  rename and open are inputs. `files` holds, for each path, the lines this
  logger has written to the file at that path.
*/
module Logx {
  import opened Wrappers
  import opened Text
  import opened GoInt

  // ---- levels ----

  const Debug: int := 0
  const Info: int := 1
  const Warn: int := 2
  const Error: int := 3

  /** `Level.String`. */
  function LevelName(lv: int): (r: string)
    ensures r == "UNKNOWN" <==> !(Debug <= lv <= Error)
  {
    if lv == Debug then "DEBUG"
    else if lv == Info then "INFO"
    else if lv == Warn then "WARN"
    else if lv == Error then "ERROR"
    else "UNKNOWN"
  }

  /** The four levels have four different names, none with a space. */
  lemma LevelNamesDistinct(a: int, b: int)
    requires Debug <= a <= Error && Debug <= b <= Error && a != b
    ensures LevelName(a) != LevelName(b)
    ensures ' ' !in LevelName(a)
  {
  }

  const ColReset: string := "\U{001B}[0m"
  const ColGray: string := "\U{001B}[90m"
  const ColBlue: string := "\U{001B}[34m"
  const ColYellow: string := "\U{001B}[33m"
  const ColRed: string := "\U{001B}[31m"

  /** `colorFor`: gray, blue, yellow and red for the four levels; the reset code otherwise. */
  function ColorFor(lv: int): (r: string)
    ensures r == ColReset <==> LevelName(lv) == "UNKNOWN"
    ensures lv == Debug ==> r == ColGray
    ensures lv == Info ==> r == ColBlue
    ensures lv == Warn ==> r == ColYellow
    ensures lv == Error ==> r == ColRed
  {
    if lv == Debug then ColGray
    else if lv == Info then ColBlue
    else if lv == Warn then ColYellow
    else if lv == Error then ColRed
    else ColReset
  }

  // ---- line layout ----

  /** What `runtime.Caller` reports: the source path and line. */
  datatype Caller = Caller(path: string, line: int)

  /** The source name shown: the part of the path after its last `/`. */
  function ShortName(path: string): (r: string)
    ensures |r| <= |path| && r == path[|path| - |r|..]
    ensures '/' !in r
    ensures '/' !in path ==> r == path
    ensures '/' in path ==> path[|path| - |r| - 1] == '/'
  {
    match LastIndexByte(path, '/')
    case Some(i) => path[i + 1..]
    case None => path
  }

  /** `name:line` when the source is included and the caller is known, else empty. */
  function FileLine(includeSrc: bool, caller: Option<Caller>): (r: string)
    ensures r == [] <==> !includeSrc || caller.None?
  {
    if includeSrc && caller.Some? then ShortName(caller.value.path) + ":" + IntToString(caller.value.line) else ""
  }

  /** The timestamp, the level name and, when known, `[name:line]`. */
  function Header(ts: string, lvl: string, fileline: string): (r: string)
    ensures HasPrefix(r, ts + " " + lvl)
    ensures fileline != "" ==> HasSuffix(r, "]")
  {
    ts + " " + lvl + (if fileline != "" then " [" + fileline + "]" else "")
  }

  /** The line written to the file: the header, ` - ` and the message. */
  function FileText(ts: string, lv: int, fileline: string, msg: string): string {
    Header(ts, LevelName(lv), fileline) + " - " + msg
  }

  /** The console line: the file line's header between the level's colour and the reset code. */
  function ConsoleText(ts: string, lv: int, fileline: string, msg: string): string {
    ColorFor(lv) + Header(ts, LevelName(lv), fileline) + ColReset + " - " + msg
  }

  /** The console line is the file line with the colour codes put around its header. */
  lemma ConsoleIsColouredFileLine(ts: string, lv: int, fileline: string, msg: string)
    ensures ConsoleText(ts, lv, fileline, msg) ==
      ColorFor(lv) + FileText(ts, lv, fileline, msg)[..|Header(ts, LevelName(lv), fileline)|]
      + ColReset + FileText(ts, lv, fileline, msg)[|Header(ts, LevelName(lv), fileline)|..]
  {
    var h := Header(ts, LevelName(lv), fileline);
    var f := FileText(ts, lv, fileline, msg);
    assert f == h + (" - " + msg);
    assert f[..|h|] == h && f[|h|..] == " - " + msg;
  }

  lemma SplitTwoWords(a: string, b: string, rest: string)
    requires ' ' !in a && ' ' !in b
    ensures Split(a + [' '] + b + [' '] + rest, ' ')[0] == a
    ensures Split(a + [' '] + b + [' '] + rest, ' ')[1] == b
  {
    assert a + [' '] + b + [' '] + rest == a + [' '] + (b + [' '] + rest);
    SplitAfter(a, ' ', b + [' '] + rest);
    SplitAfter(b, ' ', rest);
  }

  /** With a timestamp free of spaces, the file line's first word is the
      timestamp and its second the level name. */
  lemma FileTextFields(ts: string, lv: int, fileline: string, msg: string)
    requires ' ' !in ts
    ensures Split(FileText(ts, lv, fileline, msg), ' ')[0] == ts
    ensures Split(FileText(ts, lv, fileline, msg), ' ')[1] == LevelName(lv)
  {
    var lvl := LevelName(lv);
    var rest := if fileline != "" then "[" + fileline + "]" + " - " + msg else "- " + msg;
    assert FileText(ts, lv, fileline, msg) == ts + [' '] + lvl + [' '] + rest;
    SplitTwoWords(ts, lvl, rest);
  }

  // ---- rotation ----

  /** Where the file line goes: the open log file, standard error, or nowhere. */
  datatype Sink = OpenFile | Stderr | Discard

  /** `rotateIfNeeded` goes ahead only with a size limit, an open file, and a
      size reading at or above the limit. */
  predicate ShouldRotate(maxSize: int, fileHandle: bool, size: Option<int>)
    ensures ShouldRotate(maxSize, fileHandle, size) ==> fileHandle && size.Some? && size.value > 0
  {
    maxSize > 0 && fileHandle && size.Some? && size.value >= maxSize
  }

  /** The path the full file is moved to. */
  function BackupName(path: string, stamp: string): (r: string)
    ensures |r| > |path| && r[..|path| + 1] == path + "."
  {
    assert (path + "." + stamp)[..|path| + 1] == path + ".";
    path + "." + stamp
  }

  /** The file state after rotating: the file moved to its backup name when
      the rename succeeds, then reopened at its path. */
  datatype FileState = FileState(files: map<string, seq<string>>, file: Sink, fileHandle: bool)

  function Rotate(st: FileState, path: string, stamp: string, renameOk: bool, openOk: bool): (r: FileState)
    requires path in st.files
    ensures r.fileHandle == openOk && r.file == (if openOk then OpenFile else Stderr)
    ensures renameOk ==> BackupName(path, stamp) in r.files && r.files[BackupName(path, stamp)] == st.files[path]
    ensures renameOk ==> (path in r.files <==> openOk) && (openOk ==> r.files[path] == [])
    ensures !renameOk ==> r.files == st.files
    ensures forall p :: p in st.files && p != path && p != BackupName(path, stamp) ==> p in r.files && r.files[p] == st.files[p]
  {
    var moved := if renameOk then st.files[BackupName(path, stamp) := st.files[path]] - {path} else st.files;
    if !openOk then FileState(moved, Stderr, false)
    else FileState(if renameOk then moved[path := []] else moved, OpenFile, true)
  }

  /** A failed reopen drops the handle, so that no later call rotates again. */
  lemma FailedReopenStopsRotation(st: FileState, path: string, stamp: string, renameOk: bool, maxSize: int, size: Option<int>)
    requires path in st.files
    ensures !ShouldRotate(maxSize, Rotate(st, path, stamp, renameOk, false).fileHandle, size)
  {
  }

  /** The file line written to the sink. */
  function Written(files: map<string, seq<string>>, file: Sink, path: string, line: string): (r: map<string, seq<string>>)
    requires file == OpenFile ==> path in files
    ensures file != OpenFile ==> r == files
    ensures file == OpenFile ==> r == files[path := files[path] + [line]]
  {
    if file == OpenFile then files[path := files[path] + [line]] else files
  }

  /** What one `logf` call reads from the world: the formatted timestamp,
      the caller, the file size, the rotation stamp, and whether the rename
      and the reopen of a rotation succeed. */
  datatype LogIo = LogIo(ts: string, caller: Option<Caller>, size: Option<int>, stamp: string, renameOk: bool, openOk: bool)

  /** One `Debugf`/`Infof`/`Warnf`/`Errorf` call: its level and its formatted message. */
  datatype LogEntry = LogEntry(level: int, msg: string)

  /** The logger's fields as a value. */
  datatype LogState = LogState(
    level: int, includeSrc: bool, timeFormat: string, file: Sink, fileHandle: bool, filePath: string,
    maxSize: int, console: seq<string>, stderr: seq<string>, files: map<string, seq<string>>)
  {
    /** A handle is open exactly when file lines go to the file, and its file is at `filePath`. */
    predicate Valid() {
      (fileHandle <==> file == OpenFile) && (fileHandle ==> filePath in files)
    }
  }

  /** `logf` on a state: nothing below the level; otherwise one console
      line, one file line to the sink, then the rotation rule. */
  function LogStep(s: LogState, lv: int, msg: string, io: LogIo): (r: LogState)
    requires s.Valid()
    ensures r.Valid()
    ensures lv < s.level ==> r == s
    ensures r.level == s.level && r.includeSrc == s.includeSrc && r.timeFormat == s.timeFormat
    ensures r.filePath == s.filePath && r.maxSize == s.maxSize
    ensures r.console == s.console + ConsoleOf(s.level, s.includeSrc, LogEntry(lv, msg), io)
  {
    if lv < s.level then s
    else
      var fl := FileLine(s.includeSrc, io.caller);
      var line := FileText(io.ts, lv, fl, msg);
      var st := FileState(Written(s.files, s.file, s.filePath, line), s.file, s.fileHandle);
      var after := if ShouldRotate(s.maxSize, s.fileHandle, io.size) then Rotate(st, s.filePath, io.stamp, io.renameOk, io.openOk) else st;
      s.(console := s.console + [ConsoleText(io.ts, lv, fl, msg)],
         stderr := s.stderr + (if s.file == Stderr then [line] else []),
         files := after.files, file := after.file, fileHandle := after.fileHandle)
  }

  /** A call at or above the level writes one coloured console line, one
      file line to stderr when that is the sink or to the open file, and
      then rotates a full file. */
  lemma LogStepWrites(s: LogState, lv: int, msg: string, io: LogIo)
    requires s.Valid() && lv >= s.level
    ensures var r := LogStep(s, lv, msg, io);
      var fl := FileLine(s.includeSrc, io.caller);
      var line := FileText(io.ts, lv, fl, msg);
      var st := FileState(Written(s.files, s.file, s.filePath, line), s.file, s.fileHandle);
      && r.console == s.console + [ConsoleText(io.ts, lv, fl, msg)]
      && r.stderr == s.stderr + (if s.file == Stderr then [line] else [])
      && FileState(r.files, r.file, r.fileHandle) ==
           (if ShouldRotate(s.maxSize, s.fileHandle, io.size) then Rotate(st, s.filePath, io.stamp, io.renameOk, io.openOk) else st)
  {
  }

  /** The console line of one record written at `level`, if any. */
  function ConsoleOf(level: int, includeSrc: bool, e: LogEntry, io: LogIo): seq<string> {
    if e.level >= level then [ConsoleText(io.ts, e.level, FileLine(includeSrc, io.caller), e.msg)] else []
  }

  /** The console lines of `records` written at `level`, the i-th with what
      the world gives call `k + i`: one per record at or above the level. */
  function Shown(level: int, includeSrc: bool, records: seq<LogEntry>, io: nat -> LogIo, k: nat): (r: seq<string>)
    ensures |r| <= |records|
    ensures (forall i :: 0 <= i < |records| ==> records[i].level < level) ==> r == []
    ensures (forall i :: 0 <= i < |records| ==> records[i].level >= level) ==> |r| == |records|
    decreases |records|
  {
    if records == [] then []
    else
      ConsoleOf(level, includeSrc, records[0], io(k)) + Shown(level, includeSrc, records[1..], io, k + 1)
  }

  /** The records written one after another, the i-th with what the world
      gives call `k + i`; the settings stay. */
  function Emit(s: LogState, records: seq<LogEntry>, io: nat -> LogIo, k: nat): (r: LogState)
    requires s.Valid()
    ensures r.Valid()
    ensures r.level == s.level && r.includeSrc == s.includeSrc && r.timeFormat == s.timeFormat
    ensures r.filePath == s.filePath && r.maxSize == s.maxSize
    decreases |records|
  {
    if records == [] then s
    else Emit(LogStep(s, records[0].level, records[0].msg, io(k)), records[1..], io, k + 1)
  }

  /** The console gains exactly the lines of the records at or above the level, in order. */
  lemma {:induction false} EmitConsole(s: LogState, records: seq<LogEntry>, io: nat -> LogIo, k: nat)
    requires s.Valid()
    ensures Emit(s, records, io, k).console == s.console + Shown(s.level, s.includeSrc, records, io, k)
    decreases |records|
  {
    if records != [] {
      var e := records[0];
      var next := LogStep(s, e.level, e.msg, io(k));
      var here := ConsoleOf(s.level, s.includeSrc, e, io(k));
      var later := Shown(s.level, s.includeSrc, records[1..], io, k + 1);
      assert e == LogEntry(e.level, e.msg);
      assert next.console == s.console + here && next.level == s.level && next.includeSrc == s.includeSrc;
      EmitUnfold(s, records, io, k);
      EmitConsole(next, records[1..], io, k + 1);
      ConcatAssoc(s.console, here, later);
    }
  }

  /** One step of `Emit`: the first record, then the rest. */
  lemma EmitUnfold(s: LogState, records: seq<LogEntry>, io: nat -> LogIo, k: nat)
    requires s.Valid() && records != []
    ensures Emit(s, records, io, k) == Emit(LogStep(s, records[0].level, records[0].msg, io(k)), records[1..], io, k + 1)
  {
  }

  lemma ConcatAssoc(a: seq<string>, b: seq<string>, c: seq<string>)
    ensures (a + b) + c == a + (b + c)
  {
  }

  /** Writing one record is one log call. */
  lemma EmitOne(s: LogState, e: LogEntry, io: nat -> LogIo, k: nat)
    requires s.Valid()
    ensures Emit(s, [e], io, k) == LogStep(s, e.level, e.msg, io(k))
  {
    assert [e][1..] == [];
  }

  /** Writing two batches is writing their concatenation. */
  lemma {:induction false} EmitAppend(s: LogState, a: seq<LogEntry>, b: seq<LogEntry>, io: nat -> LogIo, k: nat)
    requires s.Valid()
    ensures Emit(s, a + b, io, k) == Emit(Emit(s, a, io, k), b, io, k + |a|)
    decreases |a|
  {
    if a != [] {
      assert (a + b)[0] == a[0] && (a + b)[1..] == a[1..] + b;
      var next := LogStep(s, a[0].level, a[0].msg, io(k));
      EmitUnfold(s, a + b, io, k);
      EmitUnfold(s, a, io, k);
      EmitAppend(next, a[1..], b, io, k + 1);
    } else {
      assert a + b == b;
    }
  }

  /** Records below the logger's level leave every output as it was. */
  lemma {:induction false} EmitBelowLevel(s: LogState, records: seq<LogEntry>, io: nat -> LogIo, k: nat)
    requires s.Valid()
    requires forall i :: 0 <= i < |records| ==> records[i].level < s.level
    ensures Emit(s, records, io, k) == s
    decreases |records|
  {
    if records != [] {
      assert records[0].level < s.level;
      EmitBelowLevel(s, records[1..], io, k + 1);
    }
  }

  /** The options `New` takes. */
  datatype Options = Options(level: int, maxSizeMB: int, includeSrc: bool, timeFormat: string)

  const RFC3339: string := "2006-01-02T15:04:05Z07:00"

  /** `int64(mb) * 1024 * 1024`, with Go's 64-bit wrap-around. */
  function MaxSizeBytes(mb: int): (r: int)
    ensures IsInt64(r)
    ensures 0 <= mb <= Int64Max / 1_048_576 ==> r == mb * 1_048_576 && (mb > 0 ==> r > 0)
  {
    Wrap64(mb * 1_048_576)
  }

  class Logger {
    var level: int
    var includeSrc: bool
    var timeFormat: string
    var file: Sink
    var fileHandle: bool
    var filePath: string
    var maxSize: int
    var console: seq<string>
    var stderr: seq<string>
    var files: map<string, seq<string>>

    /** A handle is open exactly when file lines go to the file, and its file is at `filePath`. */
    predicate Valid()
      reads this
    {
      State().Valid()
    }

    function State(): LogState
      reads this
    {
      LogState(level, includeSrc, timeFormat, file, fileHandle, filePath, maxSize, console, stderr, files)
    }

    /** The logger `New` builds once the file at `fp` is open. */
    constructor (fp: string, opts: Options)
      ensures Valid()
      ensures level == opts.level && includeSrc == opts.includeSrc
      ensures timeFormat == (if opts.timeFormat == "" then RFC3339 else opts.timeFormat)
      ensures file == OpenFile && fileHandle && filePath == fp && maxSize == MaxSizeBytes(opts.maxSizeMB)
      ensures console == [] && stderr == [] && files == map[fp := []]
    {
      level := opts.level;
      includeSrc := opts.includeSrc;
      timeFormat := if opts.timeFormat == "" then RFC3339 else opts.timeFormat;
      file := OpenFile;
      fileHandle := true;
      filePath := fp;
      maxSize := MaxSizeBytes(opts.maxSizeMB);
      console, stderr := [], [];
      files := map[fp := []];
    }

    /** `logf`: the message `msg` at level `lv`, with what the world gives this call. */
    method Logf(lv: int, msg: string, io: LogIo)
      requires Valid()
      modifies this
      ensures Valid()
      ensures State() == LogStep(old(State()), lv, msg, io)
    {
      if lv < level {
        return;
      }
      ghost var s0 := State();
      var fl := FileLine(includeSrc, io.caller);
      console := console + [ConsoleText(io.ts, lv, fl, msg)];
      var line := FileText(io.ts, lv, fl, msg);
      if file == Stderr {
        stderr := stderr + [line];
      }
      files := Written(files, file, filePath, line);
      if ShouldRotate(maxSize, fileHandle, io.size) {
        var r := Rotate(FileState(files, file, fileHandle), filePath, io.stamp, io.renameOk, io.openOk);
        files, file, fileHandle := r.files, r.file, r.fileHandle;
      }
      assert State() == LogStep(s0, lv, msg, io).(console := console, stderr := stderr, files := files, file := file, fileHandle := fileHandle);
    }

    method SetLevel(lv: int)
      modifies this
      ensures level == lv
      ensures includeSrc == old(includeSrc) && timeFormat == old(timeFormat) && file == old(file)
      ensures fileHandle == old(fileHandle) && filePath == old(filePath) && maxSize == old(maxSize)
      ensures console == old(console) && stderr == old(stderr) && files == old(files)
    {
      level := lv;
    }

    method SetIncludeSrc(on: bool)
      modifies this
      ensures includeSrc == on
      ensures level == old(level) && timeFormat == old(timeFormat) && file == old(file)
      ensures fileHandle == old(fileHandle) && filePath == old(filePath) && maxSize == old(maxSize)
      ensures console == old(console) && stderr == old(stderr) && files == old(files)
    {
      includeSrc := on;
    }

    /** An empty format is ignored. */
    method SetTimeFormat(tf: string)
      modifies this
      ensures timeFormat == if tf == "" then old(timeFormat) else tf
      ensures level == old(level) && includeSrc == old(includeSrc) && file == old(file)
      ensures fileHandle == old(fileHandle) && filePath == old(filePath) && maxSize == old(maxSize)
      ensures console == old(console) && stderr == old(stderr) && files == old(files)
    {
      if tf == "" {
        return;
      }
      timeFormat := tf;
    }

    /** Closes the file; later file lines are discarded. */
    method DisableFile()
      requires Valid()
      modifies this
      ensures Valid()
      ensures file == Discard && !fileHandle
      ensures level == old(level) && includeSrc == old(includeSrc) && timeFormat == old(timeFormat)
      ensures filePath == old(filePath) && maxSize == old(maxSize)
      ensures console == old(console) && stderr == old(stderr) && files == old(files)
    {
      fileHandle := false;
      file := Discard;
    }

    /** Opens `path` (the current path when empty) for file lines; on failure
        nothing changes. */
    method EnableFile(path: string, maxSizeMB: int, openOk: bool) returns (err: Option<string>)
      requires Valid()
      modifies this
      ensures Valid()
      ensures err == if openOk then None else Some("open log file")
      ensures !openOk ==> unchanged(this)
      ensures openOk ==>
        var p := if path == "" then old(filePath) else path;
        && file == OpenFile && fileHandle && filePath == p && maxSize == MaxSizeBytes(maxSizeMB)
        && files == old(files)[p := if p in old(files) then old(files)[p] else []]
      ensures level == old(level) && includeSrc == old(includeSrc) && timeFormat == old(timeFormat)
      ensures console == old(console) && stderr == old(stderr)
    {
      var p := if path == "" then filePath else path;
      if !openOk {
        return Some("open log file");
      }
      fileHandle := true;
      filePath := p;
      maxSize := MaxSizeBytes(maxSizeMB);
      file := OpenFile;
      if p !in files {
        files := files[p := []];
      }
      err := None;
    }
  }

  /** `New`: the logger, or an error when the directory or file cannot be
      created; `openOk` is whether they can. */
  method New(fp: string, opts: Options, openOk: bool) returns (l: Logger?, err: Option<string>)
    ensures l == null <==> !openOk
    ensures err.Some? <==> !openOk
    ensures l != null ==> fresh(l) && l.Valid() && l.filePath == fp && l.level == opts.level
    ensures l != null ==> l.timeFormat == (if opts.timeFormat == "" then RFC3339 else opts.timeFormat)
    ensures l != null ==> l.maxSize == MaxSizeBytes(opts.maxSizeMB) && l.includeSrc == opts.includeSrc
  {
    if !openOk {
      return null, Some("open log file");
    }
    l := new Logger(fp, opts);
    err := None;
  }
}
