/** app/utils/logger.py: the process-wide logger registry, `setup_logger`
    and the name-based routing of `get_logger`. Records, formatters and the
    files themselves are not modelled; a handler is described by its kind,
    level and (for the rotating file) path and rotation limits. */
module AppLogger {
  import opened Common

  datatype Level = NotSet | Debug | Info | Warning | Error | Critical

  datatype Handler =
    | Console(level: Level)
    | RotatingFile(path: string, level: Level, maxBytes: nat, backupCount: nat)

  datatype Logger = Logger(level: Level, propagate: bool, handlers: seq<Handler>)

  const LogDir := "logs"
  const MaxBytes: nat := 10 * 1024 * 1024
  const BackupCount: nat := 5

  /** What `logging.getLogger(name)` hands out for a name never seen. */
  const FreshLogger := Logger(NotSet, true, [])

  /** `os.path.join("logs", log_file)`: an absolute file name replaces the
      directory. */
  function LogPath(logFile: string): (path: string)
    ensures StartsWith(logFile, "/") ==> path == logFile
    ensures !StartsWith(logFile, "/") ==> path == LogDir + "/" + logFile
  {
    if StartsWith(logFile, "/") then logFile else LogDir + "/" + logFile
  }

  /** The console and rotating-file pair `setup_logger` attaches. */
  function DefaultHandlers(logFile: string, level: Level): seq<Handler> {
    [Console(level), RotatingFile(LogPath(logFile), level, MaxBytes, BackupCount)]
  }

  /** The logger after `setup_logger` configured `before`: level and
      propagation always reset, handlers attached only when there were none. */
  function Configured(before: Logger, logFile: string, level: Level): (after: Logger)
    ensures after.level == level && !after.propagate
    ensures before.handlers == [] ==> after.handlers == DefaultHandlers(logFile, level)
    ensures before.handlers != [] ==> after.handlers == before.handlers
    ensures |after.handlers| >= 2 || after.handlers == before.handlers
  {
    Logger(level, false, if before.handlers == [] then DefaultHandlers(logFile, level) else before.handlers)
  }

  /** A second setup of the same logger, with any file and level, adds no
      handler: a logger configured once keeps exactly its two handlers. */
  lemma {:induction false} SetupIdempotent(before: Logger, file1: string, level1: Level, file2: string, level2: Level)
    requires before.handlers == []
    ensures Configured(Configured(before, file1, level1), file2, level2).handlers == DefaultHandlers(file1, level1)
    ensures |Configured(Configured(before, file1, level1), file2, level2).handlers| == 2
    ensures Configured(Configured(before, file1, level1), file1, level1) == Configured(before, file1, level1)
  {
    var once := Configured(before, file1, level1);
    assert once.handlers == DefaultHandlers(file1, level1);
  }

  /** The logger a registry holds under `name`, fresh when it has none. */
  function LoggerIn(loggers: map<string, Logger>, name: string): Logger {
    if name in loggers then loggers[name] else FreshLogger
  }

  /** A registry after `setup_logger(name, name + ".log", INFO)`. */
  function SetUpChannel(loggers: map<string, Logger>, name: string): map<string, Logger> {
    loggers[name := Configured(LoggerIn(loggers, name), name + ".log", Info)]
  }

  /** A registry after the four module-level setups, in import order. */
  function ModuleSetup(loggers: map<string, Logger>): map<string, Logger> {
    SetUpChannel(SetUpChannel(SetUpChannel(SetUpChannel(loggers, "app"), "auth"), "db"), "security")
  }

  /** After the module-level setups every channel's logger is at INFO
      without propagation, a logger that had no handlers has its own
      `<name>.log` pair, and every other logger is as it was. */
  lemma ModuleSetupConfigures(before: map<string, Logger>)
    ensures var after := ModuleSetup(before);
            forall ch: Channel :: ch.Name() in after && after[ch.Name()].level == Info && !after[ch.Name()].propagate
    ensures var after := ModuleSetup(before);
            forall ch: Channel :: LoggerIn(before, ch.Name()).handlers == [] ==>
              after[ch.Name()].handlers == DefaultHandlers(ch.Name() + ".log", Info)
    ensures var after := ModuleSetup(before);
            forall n :: n in before && n !in {"app", "auth", "db", "security"} ==> n in after && after[n] == before[n]
  {
    var after := ModuleSetup(before);
    forall ch: Channel
      ensures ch.Name() in after && after[ch.Name()].level == Info && !after[ch.Name()].propagate
      ensures LoggerIn(before, ch.Name()).handlers == [] ==>
                after[ch.Name()].handlers == DefaultHandlers(ch.Name() + ".log", Info)
    {
      var name := ch.Name();
      var m1 := SetUpChannel(before, "app");
      var m2 := SetUpChannel(m1, "auth");
      var m3 := SetUpChannel(m2, "db");
      // each channel is set up once, on a registry where the earlier setups
      // did not touch it
      match ch
      case AppChannel =>
        assert after[name] == m1[name];
      case AuthChannel =>
        assert LoggerIn(m1, name) == LoggerIn(before, name);
        assert after[name] == m2[name];
      case DbChannel =>
        assert LoggerIn(m2, name) == LoggerIn(before, name);
        assert after[name] == m3[name];
      case SecurityChannel =>
        assert LoggerIn(m3, name) == LoggerIn(before, name);
    }
  }

  /** The `logging` module's registry of named loggers. */
  class Registry {
    var loggers: map<string, Logger>

    constructor ()
      ensures loggers == map[]
    {
      loggers := map[];
    }

    function Lookup(name: string): Logger
      reads this
    {
      LoggerIn(loggers, name)
    }

    /** `setup_logger(name, log_file, level)`: only the named logger changes. */
    method SetupLogger(name: string, logFile: string, level: Level) returns (logger: Logger)
      modifies this
      ensures loggers == old(loggers)[name := Configured(old(Lookup(name)), logFile, level)]
      ensures logger == loggers[name]
    {
      var current := Lookup(name);
      logger := Logger(level, false, current.handlers);
      if logger.handlers == [] {
        logger := logger.(handlers := [Console(level), RotatingFile(LogPath(logFile), level, MaxBytes, BackupCount)]);
      }
      loggers := loggers[name := logger];
    }

    /** The module-level loggers, created at import time. */
    method SetupModuleLoggers()
      modifies this
      ensures forall ch: Channel :: ch.Name() in loggers && loggers[ch.Name()].level == Info && !loggers[ch.Name()].propagate
      ensures forall ch: Channel :: old(Lookup(ch.Name())).handlers == [] ==>
                loggers[ch.Name()].handlers == DefaultHandlers(ch.Name() + ".log", Info)
      ensures forall n :: n in old(loggers) && n !in {"app", "auth", "db", "security"} ==> n in loggers && loggers[n] == old(loggers)[n]
    {
      ghost var before := this.loggers;
      var _ := SetupLogger("app", "app.log", Info);
      assert "app" + ".log" == "app.log";
      assert loggers == SetUpChannel(before, "app");
      var _ := SetupLogger("auth", "auth.log", Info);
      assert "auth" + ".log" == "auth.log";
      assert loggers == SetUpChannel(SetUpChannel(before, "app"), "auth");
      var _ := SetupLogger("db", "db.log", Info);
      assert "db" + ".log" == "db.log";
      var _ := SetupLogger("security", "security.log", Info);
      assert "security" + ".log" == "security.log";
      assert loggers == ModuleSetup(before);
      ModuleSetupConfigures(before);
    }
  }

  /** The four module-level loggers. */
  datatype Channel = AppChannel | AuthChannel | DbChannel | SecurityChannel {
    function Name(): string {
      match this
      case AppChannel => "app"
      case AuthChannel => "auth"
      case DbChannel => "db"
      case SecurityChannel => "security"
    }
  }

  /** `get_logger(module_name)`: the first of "auth", "database", "security"
      the lower-cased name contains decides; anything else gets the app
      logger. */
  function GetLogger(moduleName: string): (ch: Channel)
    ensures ch == AuthChannel <==> Contains(Lower(moduleName), "auth")
    ensures ch == DbChannel <==> !Contains(Lower(moduleName), "auth") && Contains(Lower(moduleName), "database")
    ensures ch == SecurityChannel <==> !Contains(Lower(moduleName), "auth") && !Contains(Lower(moduleName), "database")
                                       && Contains(Lower(moduleName), "security")
    ensures ch == AppChannel <==> !Contains(Lower(moduleName), "auth") && !Contains(Lower(moduleName), "database")
                                  && !Contains(Lower(moduleName), "security")
  {
    var lowered := Lower(moduleName);
    if Contains(lowered, "auth") then AuthChannel
    else if Contains(lowered, "database") then DbChannel
    else if Contains(lowered, "security") then SecurityChannel
    else AppChannel
  }

  /** Routing ignores case. */
  lemma GetLoggerIgnoresCase(moduleName: string)
    ensures GetLogger(Lower(moduleName)) == GetLogger(moduleName)
  {
    LowerIdempotent(moduleName);
  }

  lemma LowerIdempotent(s: string)
    ensures Lower(Lower(s)) == Lower(s)
  {
    assert forall i :: 0 <= i < |s| ==> LowerChar(LowerChar(s[i])) == LowerChar(s[i]);
  }
}
