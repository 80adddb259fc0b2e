/**
  Configuration: the settings read from the environment, the checks that
  reject a configuration (token, then mode, then the webhook settings), and
  the logger settings applied once the configuration is accepted.

  The environment is a map from variable name to value, a missing variable
  reading as the empty string. The integer parsers are parameters: each
  returns its value and whether it succeeded. Every message `Load` produces
  is written through the logger as it is produced.
*/
module Config {
  import opened Wrappers
  import opened Text
  import opened GoInt
  import opened GoTime
  import opened Logx

  const ModeWebhook: string := "webhook"
  const ModePolling: string := "polling"

  /** `toLogxLevel`: "debug", "info" and "error" name their levels; anything else, "warn" included, is Info. */
  function ToLogxLevel(l: string): (r: int)
    ensures r == Debug <==> l == "debug"
    ensures r == Error <==> l == "error"
    ensures r != Warn
    ensures l != "debug" && l != "error" ==> r == Info
  {
    if l == "debug" then Debug
    else if l == "info" then Info
    else if l == "error" then Error
    else Info
  }

  datatype MongoCfg = MongoCfg(
    uri: string, db: string, minPoolSize: int, maxPoolSize: int, appName: string,
    connectTimeout: int, cmdTimeout: int, maxConnectingLimit: int)

  datatype Config = Config(
    logLevel: string, logFile: bool, logFilePath: string, logFileMaxSizeMB: int, logIncludeSrc: bool,
    logTimeFormat: string, mode: string, token: string, resetWebHook: bool, timeout: int,
    transportMaxIdleConns: int, transportIdleConnTimeout: int, webHookSecret: string,
    webHookPort: string, webHookPublicUrl: string, webHookTLSKeyFile: string, webHookTLSCertFile: string,
    mongo: MongoCfg)

  /** The zero `Config{}` returned with an error. */
  function ZeroConfig(): (c: Config)
    ensures Validate(c) == Some("APP_TELEGRAM_TOKEN missing")
  {
    Config("", false, "", 0, false, "", "", "", false, 0, 0, 0, "", "", "", "", "", MongoCfg("", "", 0, 0, "", 0, 0, 0))
  }

  /** `os.Getenv`. */
  function Getenv(env: map<string, string>, name: string): (r: string)
    ensures name !in env ==> r == ""
    ensures r != "" ==> name in env && r == env[name]
  {
    if name in env then env[name] else ""
  }

  /** A boolean setting: true only for exactly "true". */
  predicate Flag(env: map<string, string>, name: string)
    ensures Flag(env, name) ==> name in env
  {
    Getenv(env, name) == "true"
  }

  /** An integer parser: the value it returns, and whether it succeeded. */
  type Parser = string -> (int, bool)

  /** The error logged when the variable `name` does not parse. */
  function ParseFailure(env: map<string, string>, parse: Parser, name: string): (r: seq<LogEntry>)
    ensures r == [] <==> parse(Getenv(env, name)).1
    ensures r != [] ==> r == [LogEntry(Error, "env " + name)]
  {
    if parse(Getenv(env, name)).1 then [] else [LogEntry(Error, "env " + name)]
  }

  /** The parse failures, in the order the variables are read. */
  function ParseFailures(env: map<string, string>, atoi: Parser, parseUint: Parser): seq<LogEntry> {
    ParseFailure(env, atoi, "APP_HTTPCLIENT_TIMEOUT")
    + ParseFailure(env, atoi, "APP_HTTPCLIENT_TRANSPORT_MAXIDLECONNS")
    + ParseFailure(env, atoi, "APP_HTTPCLIENT_TRANSPORT_IDLECONNTIMEOUT")
    + ParseFailure(env, parseUint, "MONGO_MIN_POOL_SIZE")
    + ParseFailure(env, parseUint, "MONGO_MAX_POOL_SIZE")
    + ParseFailure(env, atoi, "MONGO_CONNECTION_TIMEOUT")
    + ParseFailure(env, atoi, "MONGO_CMD_TIMEOUT")
    + ParseFailure(env, atoi, "APP_LOG_FILE_MAX_MB")
    + ParseFailure(env, parseUint, "MONGO_MAX_CONNECTING_LIMIT")
  }

  /** `time.Duration(n) * time.Second`, with Go's 64-bit wrap-around. */
  function Seconds(n: int): (r: int)
    ensures IsInt64(r)
    ensures IsInt64(n * NsPerSecond) ==> r == n * NsPerSecond
  {
    Wrap64(n * NsPerSecond)
  }

  /** The configuration as read from the environment, before any check. */
  function Assemble(env: map<string, string>, atoi: Parser, parseUint: Parser): (c: Config)
    ensures c.logFile <==> Getenv(env, "APP_LOG_FILE") == "true"
    ensures c.logIncludeSrc <==> Getenv(env, "APP_LOG_INCLUDE_SRC") == "true"
    ensures c.resetWebHook <==> Getenv(env, "APP_RESET_WEBHOOK") == "true"
    ensures c.mongo.connectTimeout == Seconds(atoi(Getenv(env, "MONGO_CONNECTION_TIMEOUT")).0)
    ensures c.mongo.cmdTimeout == Seconds(atoi(Getenv(env, "MONGO_CMD_TIMEOUT")).0)
  {
    Config(
      Getenv(env, "APP_LOG_LEVEL"), Flag(env, "APP_LOG_FILE"), Getenv(env, "APP_LOG_FILE_PATH"),
      atoi(Getenv(env, "APP_LOG_FILE_MAX_MB")).0, Flag(env, "APP_LOG_INCLUDE_SRC"), Getenv(env, "APP_LOG_TIMEFORMAT"),
      Getenv(env, "APP_MODE"), Getenv(env, "APP_TELEGRAM_TOKEN"), Flag(env, "APP_RESET_WEBHOOK"),
      atoi(Getenv(env, "APP_HTTPCLIENT_TIMEOUT")).0, atoi(Getenv(env, "APP_HTTPCLIENT_TRANSPORT_MAXIDLECONNS")).0,
      atoi(Getenv(env, "APP_HTTPCLIENT_TRANSPORT_IDLECONNTIMEOUT")).0, Getenv(env, "APP_WEBHOOK_SECRET"),
      Getenv(env, "APP_WEBHOOK_PORT"), Getenv(env, "APP_WEBHOOK_PUBLIC_URL"), Getenv(env, "APP_WEBHOOK_TLS_KEY_FILE"),
      Getenv(env, "APP_WEBHOOK_TLS_CERT_FILE"),
      MongoCfg(
        Getenv(env, "MONGO_URI"), Getenv(env, "MONGO_DB"), parseUint(Getenv(env, "MONGO_MIN_POOL_SIZE")).0,
        parseUint(Getenv(env, "MONGO_MAX_POOL_SIZE")).0, Getenv(env, "MONGO_APPNAME"),
        Seconds(atoi(Getenv(env, "MONGO_CONNECTION_TIMEOUT")).0), Seconds(atoi(Getenv(env, "MONGO_CMD_TIMEOUT")).0),
        parseUint(Getenv(env, "MONGO_MAX_CONNECTING_LIMIT")).0))
  }

  // ---- validation ----

  /** The webhook settings in the order they are checked, each with its variable. */
  function WebhookVars(c: Config): (r: seq<(string, string)>)
    ensures |r| == 4 && forall i :: 0 <= i < |r| ==> HasPrefix(r[i].0, "APP_WEBHOOK_")
  {
    [("APP_WEBHOOK_PORT", c.webHookPort), ("APP_WEBHOOK_PUBLIC_URL", c.webHookPublicUrl),
     ("APP_WEBHOOK_TLS_CERT_FILE", c.webHookTLSCertFile), ("APP_WEBHOOK_TLS_KEY_FILE", c.webHookTLSKeyFile)]
  }

  /** The names of the empty settings among `vars`, in order. */
  function EmptyNames(vars: seq<(string, string)>): (r: seq<string>)
    ensures |r| <= |vars|
  {
    if vars == [] then [] else (if vars[0].1 == "" then [vars[0].0] else []) + EmptyNames(vars[1..])
  }

  /** Names are listed exactly for the settings that are empty, each once and in checking order. */
  lemma EmptyNamesExact(vars: seq<(string, string)>, name: string)
    requires forall i, j :: 0 <= i < j < |vars| ==> vars[i].0 != vars[j].0
    ensures name in EmptyNames(vars) <==> exists i :: 0 <= i < |vars| && vars[i].0 == name && vars[i].1 == ""
    ensures forall i, j :: 0 <= i < j < |EmptyNames(vars)| ==> EmptyNames(vars)[i] != EmptyNames(vars)[j]
  {
    EmptyNamesMember(vars, name);
    EmptyNamesDistinct(vars);
  }

  /** A name is listed exactly when some setting of that name is empty. */
  lemma {:induction false} EmptyNamesMember(vars: seq<(string, string)>, name: string)
    ensures name in EmptyNames(vars) <==> exists i :: 0 <= i < |vars| && vars[i].0 == name && vars[i].1 == ""
  {
    if vars != [] {
      var rest := vars[1..];
      EmptyNamesMember(rest, name);
      assert EmptyNames(vars) == (if vars[0].1 == "" then [vars[0].0] else []) + EmptyNames(rest);
      if name in EmptyNames(vars) && !(vars[0].0 == name && vars[0].1 == "") {
        assert name in EmptyNames(rest);
        var i :| 0 <= i < |rest| && rest[i].0 == name && rest[i].1 == "";
        assert vars[i + 1] == rest[i];
      }
      if exists i :: 0 <= i < |vars| && vars[i].0 == name && vars[i].1 == "" {
        var i :| 0 <= i < |vars| && vars[i].0 == name && vars[i].1 == "";
        if i > 0 {
          assert rest[i - 1] == vars[i];
        }
      }
    }
  }

  /** Settings with distinct names give a list without repeats. */
  lemma {:induction false} EmptyNamesDistinct(vars: seq<(string, string)>)
    requires forall i, j :: 0 <= i < j < |vars| ==> vars[i].0 != vars[j].0
    ensures forall i, j :: 0 <= i < j < |EmptyNames(vars)| ==> EmptyNames(vars)[i] != EmptyNames(vars)[j]
  {
    if vars != [] {
      var rest := vars[1..];
      forall i, j | 0 <= i < j < |rest|
        ensures rest[i].0 != rest[j].0
      {
        assert rest[i] == vars[i + 1] && rest[j] == vars[j + 1];
      }
      EmptyNamesDistinct(rest);
      forall i | 0 <= i < |rest|
        ensures rest[i].0 != vars[0].0
      {
        assert rest[i] == vars[i + 1];
      }
      EmptyNamesAbsent(rest, vars[0].0);
      var head := if vars[0].1 == "" then [vars[0].0] else [];
      var tail := EmptyNames(rest);
      var r := EmptyNames(vars);
      assert r == head + tail;
      forall i, j | 0 <= i < j < |r|
        ensures r[i] != r[j]
      {
        if head != [] && i == 0 {
          assert r[j] == tail[j - 1];
          assert r[j] in tail;
        } else {
          assert r[i] == tail[i - |head|] && r[j] == tail[j - |head|];
        }
      }
    }
  }

  lemma {:induction false} EmptyNamesAbsent(vars: seq<(string, string)>, name: string)
    requires forall i :: 0 <= i < |vars| ==> vars[i].0 != name
    ensures name !in EmptyNames(vars)
  {
    if vars != [] {
      assert forall i :: 0 <= i < |vars[1..]| ==> vars[1..][i] == vars[i + 1];
      EmptyNamesAbsent(vars[1..], name);
    }
  }

  /** The webhook settings that are missing, in the fixed order. */
  function Missing(c: Config): (r: seq<string>)
    ensures |r| <= 4
  {
    EmptyNames(WebhookVars(c))
  }

  /** `%v` of a list of strings: `[a b c]`. */
  function FormatList(xs: seq<string>): (r: string)
    requires xs != []
    ensures |r| >= 2 + |xs[0]| && r[0] == '[' && r[|r| - 1] == ']' && r[1..1 + |xs[0]|] == xs[0]
  {
    "[" + Join(xs, ' ') + "]"
  }

  /** Why a configuration is rejected, if it is: no token, then a mode that is
      neither "webhook" nor "polling", then missing webhook settings. */
  function Validate(c: Config): (r: Option<string>)
    ensures c.token == "" ==> r == Some("APP_TELEGRAM_TOKEN missing")
    ensures r.None? <==> c.token != "" && (c.mode == ModePolling || (c.mode == ModeWebhook && Missing(c) == []))
  {
    if c.token == "" then Some("APP_TELEGRAM_TOKEN missing")
    else if c.mode != ModeWebhook && c.mode != ModePolling then Some("APP_MODE should be 'webhook' or 'polling'")
    else if c.mode == ModeWebhook && Missing(c) != [] then Some("in webhook mode you have to set: " + FormatList(Missing(c)))
    else None
  }

  /** Polling mode never asks for the webhook settings. */
  lemma PollingNeedsNoWebhook(c: Config)
    requires c.token != "" && c.mode == ModePolling
    ensures Validate(c).None?
  {
  }

  /** In webhook mode, a setting is reported exactly when it is empty. */
  lemma MissingIsEmptySettings(c: Config, name: string)
    ensures name in Missing(c) <==>
      || (name == "APP_WEBHOOK_PORT" && c.webHookPort == "")
      || (name == "APP_WEBHOOK_PUBLIC_URL" && c.webHookPublicUrl == "")
      || (name == "APP_WEBHOOK_TLS_CERT_FILE" && c.webHookTLSCertFile == "")
      || (name == "APP_WEBHOOK_TLS_KEY_FILE" && c.webHookTLSKeyFile == "")
  {
    var vars := WebhookVars(c);
    EmptyNamesExact(vars, name);
    if name in Missing(c) {
      var i :| 0 <= i < |vars| && vars[i].0 == name && vars[i].1 == "";
    } else {
      assert !(vars[0].0 == name && vars[0].1 == "");
      assert !(vars[1].0 == name && vars[1].1 == "");
      assert !(vars[2].0 == name && vars[2].1 == "");
      assert !(vars[3].0 == name && vars[3].1 == "");
    }
  }

  /** The webhook settings that are all there make webhook mode acceptable. */
  lemma WebhookComplete(c: Config)
    requires c.token != "" && c.mode == ModeWebhook
    requires c.webHookPort != "" && c.webHookPublicUrl != "" && c.webHookTLSCertFile != "" && c.webHookTLSKeyFile != ""
    ensures Validate(c).None?
  {
    var vars := WebhookVars(c);
    assert EmptyNames(vars[3..]) == [] by { assert vars[3..][1..] == []; }
    assert EmptyNames(vars[2..]) == [] by { assert vars[2..][1..] == vars[3..]; }
    assert EmptyNames(vars[1..]) == [] by { assert vars[1..][1..] == vars[2..]; }
  }

  /** A number that does not parse is only logged: the parsers never decide
      whether a configuration is accepted, or why it is rejected. */
  lemma ParsersDoNotDecide(env: map<string, string>, atoi: Parser, parseUint: Parser, atoi': Parser, parseUint': Parser)
    ensures Validate(Assemble(env, atoi, parseUint)) == Validate(Assemble(env, atoi', parseUint'))
  {
    var c, c' := Assemble(env, atoi, parseUint), Assemble(env, atoi', parseUint');
    assert WebhookVars(c) == WebhookVars(c');
  }

  // ---- Load ----

  /** One numeric variable: its parsed value; a failure is written to
      `logger` as an error. `done` is what has been written since `s0`, so
      this is log call `calls`; the ghost result extends it. */
  method ParseVar(logger: Logger, env: map<string, string>, parse: Parser, name: string, io: nat -> LogIo,
                  calls: nat, ghost s0: LogState, ghost done: seq<LogEntry>)
    returns (v: int, calls': nat, ghost done': seq<LogEntry>)
    requires s0.Valid() && logger.Valid() && logger.State() == Emit(s0, done, io, 0) && calls == |done|
    modifies logger
    ensures logger.Valid()
    ensures v == parse(Getenv(env, name)).0
    ensures done' == done + ParseFailure(env, parse, name) && calls' == |done'|
    ensures logger.State() == Emit(s0, done', io, 0)
  {
    var ok;
    v, ok := parse(Getenv(env, name)).0, parse(Getenv(env, name)).1;
    done' := done + ParseFailure(env, parse, name);
    EmitAppend(s0, done, ParseFailure(env, parse, name), io, 0);
    calls' := calls;
    if !ok {
      logger.Logf(Error, "env " + name, io(calls));
      calls' := calls + 1;
      assert ParseFailure(env, parse, name)[1..] == [];
    }
  }

  /** Reads the environment: the configuration before any check; every
      parse error is written to `logger` on the way, log calls counted from 0. */
  method Read(logger: Logger, env: map<string, string>, atoi: Parser, parseUint: Parser, io: nat -> LogIo)
    returns (c: Config, calls: nat)
    requires logger.Valid()
    modifies logger
    ensures logger.Valid()
    ensures c == Assemble(env, atoi, parseUint)
    ensures calls == |ParseFailures(env, atoi, parseUint)|
    ensures logger.State() == Emit(old(logger.State()), ParseFailures(env, atoi, parseUint), io, 0)
  {
    ghost var s0 := logger.State();
    ghost var done: seq<LogEntry> := [];
    var timeout, maxIdle, idleTimeout, minPool, maxPool, connTimeout, cmdTimeout, maxMB, maxConnecting;
    calls := 0;
    timeout, calls, done := ParseVar(logger, env, atoi, "APP_HTTPCLIENT_TIMEOUT", io, calls, s0, done);
    assert done == ParseFailure(env, atoi, "APP_HTTPCLIENT_TIMEOUT");
    maxIdle, calls, done := ParseVar(logger, env, atoi, "APP_HTTPCLIENT_TRANSPORT_MAXIDLECONNS", io, calls, s0, done);
    idleTimeout, calls, done := ParseVar(logger, env, atoi, "APP_HTTPCLIENT_TRANSPORT_IDLECONNTIMEOUT", io, calls, s0, done);
    minPool, calls, done := ParseVar(logger, env, parseUint, "MONGO_MIN_POOL_SIZE", io, calls, s0, done);
    maxPool, calls, done := ParseVar(logger, env, parseUint, "MONGO_MAX_POOL_SIZE", io, calls, s0, done);
    connTimeout, calls, done := ParseVar(logger, env, atoi, "MONGO_CONNECTION_TIMEOUT", io, calls, s0, done);
    cmdTimeout, calls, done := ParseVar(logger, env, atoi, "MONGO_CMD_TIMEOUT", io, calls, s0, done);
    maxMB, calls, done := ParseVar(logger, env, atoi, "APP_LOG_FILE_MAX_MB", io, calls, s0, done);
    maxConnecting, calls, done := ParseVar(logger, env, parseUint, "MONGO_MAX_CONNECTING_LIMIT", io, calls, s0, done);
    c := Config(
      Getenv(env, "APP_LOG_LEVEL"), Flag(env, "APP_LOG_FILE"), Getenv(env, "APP_LOG_FILE_PATH"),
      maxMB, Flag(env, "APP_LOG_INCLUDE_SRC"), Getenv(env, "APP_LOG_TIMEFORMAT"),
      Getenv(env, "APP_MODE"), Getenv(env, "APP_TELEGRAM_TOKEN"), Flag(env, "APP_RESET_WEBHOOK"),
      timeout, maxIdle, idleTimeout, Getenv(env, "APP_WEBHOOK_SECRET"),
      Getenv(env, "APP_WEBHOOK_PORT"), Getenv(env, "APP_WEBHOOK_PUBLIC_URL"), Getenv(env, "APP_WEBHOOK_TLS_KEY_FILE"),
      Getenv(env, "APP_WEBHOOK_TLS_CERT_FILE"),
      MongoCfg(
        Getenv(env, "MONGO_URI"), Getenv(env, "MONGO_DB"), minPool, maxPool, Getenv(env, "MONGO_APPNAME"),
        Seconds(connTimeout), Seconds(cmdTimeout), maxConnecting));
  }

  /** The checks, in order: token, mode, then the webhook settings collected one by one. */
  method Check(c: Config) returns (err: Option<string>)
    ensures err == Validate(c)
  {
    if c.token == "" {
      return Some("APP_TELEGRAM_TOKEN missing");
    }
    if c.mode != ModeWebhook && c.mode != ModePolling {
      return Some("APP_MODE should be 'webhook' or 'polling'");
    }
    if c.mode == ModeWebhook {
      var missing: seq<string> := [];
      if c.webHookPort == "" {
        missing := missing + ["APP_WEBHOOK_PORT"];
      }
      if c.webHookPublicUrl == "" {
        missing := missing + ["APP_WEBHOOK_PUBLIC_URL"];
      }
      if c.webHookTLSCertFile == "" {
        missing := missing + ["APP_WEBHOOK_TLS_CERT_FILE"];
      }
      if c.webHookTLSKeyFile == "" {
        missing := missing + ["APP_WEBHOOK_TLS_KEY_FILE"];
      }
      MissingUnfolds(c);
      assert missing == Missing(c);
      if |missing| > 0 {
        return Some("in webhook mode you have to set: " + FormatList(missing));
      }
    }
    return None;
  }

  /** The logger once an accepted configuration's settings are applied,
      before anything more is written: level, source flag and time format
      set; the file opened at the configured path (the current one when
      empty) when file logging is asked for and the open succeeds, left as
      it was when the open fails, and closed when file logging is off. */
  function Configured(s: LogState, c: Config, openOk: bool): (r: LogState)
    requires s.Valid()
    ensures r.Valid()
    ensures r.level == ToLogxLevel(c.logLevel) && r.includeSrc == c.logIncludeSrc
    ensures r.timeFormat == (if c.logTimeFormat == "" then s.timeFormat else c.logTimeFormat)
    ensures c.logFile && openOk ==>
      && r.file == OpenFile && r.maxSize == MaxSizeBytes(c.logFileMaxSizeMB)
      && r.filePath == (if c.logFilePath == "" then s.filePath else c.logFilePath)
      && r.files == s.files[r.filePath := if r.filePath in s.files then s.files[r.filePath] else []]
    ensures c.logFile && !openOk ==>
      r.file == s.file && r.fileHandle == s.fileHandle && r.filePath == s.filePath && r.maxSize == s.maxSize && r.files == s.files
    ensures !c.logFile ==> r.file == Discard && !r.fileHandle && r.files == s.files
    ensures r.console == s.console && r.stderr == s.stderr
  {
    var applied := Settings(s, c);
    if !c.logFile then applied.(file := Discard, fileHandle := false)
    else if !openOk then applied
    else
      var p := if c.logFilePath == "" then s.filePath else c.logFilePath;
      applied.(file := OpenFile, fileHandle := true, filePath := p, maxSize := MaxSizeBytes(c.logFileMaxSizeMB),
           files := s.files[p := if p in s.files then s.files[p] else []])
  }

  /** The level, source flag and time format of `c` applied to `s`. */
  function Settings(s: LogState, c: Config): LogState {
    s.(level := ToLogxLevel(c.logLevel), includeSrc := c.logIncludeSrc,
       timeFormat := if c.logTimeFormat == "" then s.timeFormat else c.logTimeFormat)
  }

  /** The warning written when the log file cannot be opened. */
  function Warning(c: Config, openOk: bool): seq<LogEntry> {
    if c.logFile && !openOk then [LogEntry(Warn, "enable file logging failed: open log file")] else []
  }

  /** The warning is written at the level just set: `APP_LOG_LEVEL=error`
      keeps it off the console; any other level shows it. */
  lemma WarningAtNewLevel(s: LogState, c: Config, io: nat -> LogIo, k: nat)
    requires s.Valid() && c.logFile
    ensures var before := Configured(s, c, false);
      Emit(before, Warning(c, false), io, k).console == before.console +
        (if c.logLevel == "error" then []
         else [ConsoleText(io(k).ts, Warn, FileLine(c.logIncludeSrc, io(k).caller), "enable file logging failed: open log file")])
  {
    var before := Configured(s, c, false);
    EmitConsole(before, Warning(c, false), io, k);
    assert Warning(c, false)[1..] == [];
  }

  /** Applies the logging settings of an accepted configuration to `logger`,
      then writes the warning when the log file cannot be opened, as log call `calls`. */
  method ApplyLogging(logger: Logger, c: Config, openOk: bool, io: nat -> LogIo, calls: nat)
    requires logger.Valid()
    modifies logger
    ensures logger.Valid()
    ensures logger.State() == Emit(Configured(old(logger.State()), c, openOk), Warning(c, openOk), io, calls)
  {
    ghost var s0 := logger.State();
    logger.SetLevel(ToLogxLevel(c.logLevel));
    logger.SetIncludeSrc(c.logIncludeSrc);
    logger.SetTimeFormat(c.logTimeFormat);
    assert logger.State() == Settings(s0, c);
    if c.logFile {
      var e := logger.EnableFile(c.logFilePath, c.logFileMaxSizeMB, openOk);
      assert logger.State() == Configured(s0, c, openOk);
      if e.Some? {
        assert "enable file logging failed: " + e.value == "enable file logging failed: open log file";
        ghost var w := Warning(c, openOk);
        assert w == [LogEntry(Warn, "enable file logging failed: " + e.value)];
        EmitOne(logger.State(), w[0], io, calls);
        logger.Logf(Warn, "enable file logging failed: " + e.value, io(calls));
      }
    } else {
      logger.DisableFile();
      assert logger.State() == Configured(s0, c, openOk);
    }
  }

  /** `Load`: reads the environment, checks the configuration and, when it
      is accepted, applies its logging settings to `logger`. Every message
      goes through `logger` as it is produced: the parse errors, then either
      the rejection as an error (the configuration returned is the zero one)
      or the file warning, written at the level just set; `openOk` is
      whether the log file can be opened, and `io(i)` what the world gives
      the i-th log call. */
  method Load(logger: Logger, env: map<string, string>, atoi: Parser, parseUint: Parser, openOk: bool, io: nat -> LogIo)
    returns (cfg: Config, err: Option<string>)
    requires logger.Valid()
    modifies logger
    ensures logger.Valid()
    ensures err == Validate(Assemble(env, atoi, parseUint))
    ensures cfg == if err.Some? then ZeroConfig() else Assemble(env, atoi, parseUint)
    ensures var failures := ParseFailures(env, atoi, parseUint);
      var read := Emit(old(logger.State()), failures, io, 0);
      logger.State() ==
        if err.Some? then Emit(read, [LogEntry(Error, err.value)], io, |failures|)
        else Emit(Configured(read, cfg, openOk), Warning(cfg, openOk), io, |failures|)
  {
    var c, calls := Read(logger, env, atoi, parseUint, io);
    err := Check(c);
    if err.Some? {
      logger.Logf(Error, err.value, io(calls));
      assert [LogEntry(Error, err.value)][1..] == [];
      return ZeroConfig(), err;
    }
    ApplyLogging(logger, c, openOk, io, calls);
    cfg := c;
  }

  /** The name a single setting contributes. */
  function EmptyName(v: (string, string)): seq<string> {
    if v.1 == "" then [v.0] else []
  }

  lemma EmptyNamesOfFour(a: (string, string), b: (string, string), c: (string, string), d: (string, string))
    ensures EmptyNames([a, b, c, d]) == EmptyName(a) + EmptyName(b) + EmptyName(c) + EmptyName(d)
  {
    var vs := [a, b, c, d];
    assert vs[1..] == [b, c, d] && [b, c, d][1..] == [c, d] && [c, d][1..] == [d] && [d][1..] == [];
    assert EmptyNames([d]) == EmptyName(d);
    assert EmptyNames([c, d]) == EmptyName(c) + EmptyName(d);
    assert EmptyNames([b, c, d]) == EmptyName(b) + (EmptyName(c) + EmptyName(d));
  }

  /** The missing list written out setting by setting. */
  lemma MissingUnfolds(c: Config)
    ensures Missing(c) ==
      (if c.webHookPort == "" then ["APP_WEBHOOK_PORT"] else [])
      + (if c.webHookPublicUrl == "" then ["APP_WEBHOOK_PUBLIC_URL"] else [])
      + (if c.webHookTLSCertFile == "" then ["APP_WEBHOOK_TLS_CERT_FILE"] else [])
      + (if c.webHookTLSKeyFile == "" then ["APP_WEBHOOK_TLS_KEY_FILE"] else [])
  {
    EmptyNamesOfFour(WebhookVars(c)[0], WebhookVars(c)[1], WebhookVars(c)[2], WebhookVars(c)[3]);
  }
}
