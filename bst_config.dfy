/**
 * BSTConfig and BSTProcess, as their tests pin them down: a per-project config directory
 * holding one config file (secret key, application id) and one process record (port, proxy
 * type, pid), and the signals the process supervisor sends.
 *
 * The directory is an in-memory store; the secret key a bootstrap would generate is a
 * parameter; which pids are alive is the injected liveness oracle.
 */
module BstConfig {
  import opened Wrappers

  /** The persisted config. */
  datatype ConfigFile = ConfigFile(secretKey: string, applicationID: Option<string>)

  datatype ProxyType = Lambda | Http

  /** The persisted process record. */
  datatype ProcessRecord = ProcessRecord(port: int, proxyType: ProxyType, pid: int)

  /** The two signals the supervisor sends: 0 (existence probe) and "SIGKILL". */
  datatype Signal = Probe | SigKill

  /** One call of process.kill(pid, signal). */
  datatype Delivery = Delivery(pid: int, signal: Signal)

  /** The project's config directory; each file is present or absent. */
  class ConfigDirectory {
    var configFile: Option<ConfigFile>
    var processFile: Option<ProcessRecord>

    /** A directory with neither file, as every test starts from. */
    constructor Empty()
      ensures configFile == None && processFile == None
    {
      configFile := None;
      processFile := None;
    }
  }

  /** The processes of the machine as signals see them: the live pids, and every signal sent. */
  class ProcessTable {
    const alive: set<int>
    var delivered: seq<Delivery>

    constructor (alive: set<int>)
      ensures this.alive == alive && delivered == []
    {
      this.alive := alive;
      delivered := [];
    }

    /** BSTProcess.isRunning: sends signal 0 to `pid` and reports whether it is alive. */
    method IsRunning(pid: int) returns (running: bool)
      modifies this`delivered
      ensures running <==> pid in alive
      ensures delivered == old(delivered) + [Delivery(pid, Probe)]
    {
      delivered := delivered + [Delivery(pid, Probe)];
      running := pid in alive;
    }

    /** BSTProcess.kill: sends "SIGKILL" to `pid`. */
    method Kill(pid: int)
      modifies this`delivered
      ensures delivered == old(delivered) + [Delivery(pid, SigKill)]
    {
      delivered := delivered + [Delivery(pid, SigKill)];
    }
  }

  /** A loaded BSTConfig. Its secret key never changes once read. */
  class Config {
    const directory: ConfigDirectory
    const secretKey: string
    var applicationID: Option<string>

    constructor Read(directory: ConfigDirectory, file: ConfigFile)
      ensures this.directory == directory
      ensures secretKey == file.secretKey && applicationID == file.applicationID
    {
      this.directory := directory;
      secretKey := file.secretKey;
      applicationID := file.applicationID;
    }

    /** Writes a config with the fresh key only when none exists yet. */
    static method BootstrapIfNeeded(directory: ConfigDirectory, freshKey: string)
      modifies directory`configFile
      ensures old(directory.configFile).Some? ==> directory.configFile == old(directory.configFile)
      ensures old(directory.configFile).None? ==> directory.configFile == Some(ConfigFile(freshKey, None))
    {
      if directory.configFile.None? {
        directory.configFile := Some(ConfigFile(freshKey, None));
      }
    }

    /** BSTConfig.load: bootstraps if needed, then reads the config file. */
    static method Load(directory: ConfigDirectory, freshKey: string) returns (c: Config)
      modifies directory`configFile
      ensures fresh(c) && c.directory == directory
      ensures old(directory.configFile).Some? ==> directory.configFile == old(directory.configFile)
      ensures old(directory.configFile).None? ==> directory.configFile == Some(ConfigFile(freshKey, None))
      ensures directory.configFile == Some(ConfigFile(c.secretKey, c.applicationID))
    {
      BootstrapIfNeeded(directory, freshKey);
      c := new Config.Read(directory, directory.configFile.value);
    }

    /** Sets the application id here and in the persisted config; the key stays. */
    method UpdateApplicationID(id: string)
      modifies this`applicationID, directory`configFile
      ensures applicationID == Some(id)
      ensures directory.configFile == Some(ConfigFile(secretKey, Some(id)))
    {
      applicationID := Some(id);
      directory.configFile := Some(ConfigFile(secretKey, applicationID));
    }
  }

  /** BSTProcess.run: records the process, replacing any earlier record. */
  method Run(directory: ConfigDirectory, port: int, proxyType: ProxyType, pid: int)
    returns (p: ProcessRecord)
    modifies directory`processFile
    ensures p.port == port && p.proxyType == proxyType && p.pid == pid
    ensures directory.processFile == Some(p)
  {
    p := ProcessRecord(port, proxyType, pid);
    directory.processFile := Some(p);
  }

  /**
   * BSTProcess.running: with no record, no process and no probe; otherwise one probe of the
   * recorded pid, and the record only if that pid is alive. A stale record stays on disk.
   */
  method Running(directory: ConfigDirectory, processes: ProcessTable) returns (p: Option<ProcessRecord>)
    modifies processes`delivered
    ensures directory.processFile.None? ==> p.None? && processes.delivered == old(processes.delivered)
    ensures directory.processFile.Some? ==>
      var pid := directory.processFile.value.pid;
      && processes.delivered == old(processes.delivered) + [Delivery(pid, Probe)]
      && (p.Some? <==> pid in processes.alive)
      && (p.Some? ==> p == directory.processFile)
  {
    match directory.processFile
    case None =>
      p := None;
    case Some(record) =>
      var running := processes.IsRunning(record.pid);
      p := if running then Some(record) else None;
  }

  // ---------------------------------------------------------------- the tests' scenarios

  /** "Test new config created correctly": bootstrapping an empty directory writes a config. */
  method NewConfigCreated(freshKey: string) returns (created: bool)
    ensures created
  {
    var directory := new ConfigDirectory.Empty();
    Config.BootstrapIfNeeded(directory, freshKey);
    created := directory.configFile.Some?;
  }

  /** "Loads existing config": a second load does not generate a new key. */
  method LoadsExistingConfig(firstKey: string, secondKey: string) returns (key1: string, key2: string)
    ensures key1 == firstKey && key2 == key1
  {
    var directory := new ConfigDirectory.Empty();
    var config := Config.Load(directory, firstKey);
    key1 := config.secretKey;
    var config2 := Config.Load(directory, secondKey);
    key2 := config2.secretKey;
  }

  /** "Updates existing config": after updateApplicationID, a fresh load sees the new id and
      the same key, and the process record is untouched. */
  method UpdatesExistingConfig(firstKey: string, secondKey: string)
    returns (key1: string, key2: string, applicationID: Option<string>, recordUntouched: bool)
    ensures key2 == key1 && applicationID == Some("12345678") && recordUntouched
  {
    var directory := new ConfigDirectory.Empty();
    var config := Config.Load(directory, firstKey);
    key1 := config.secretKey;
    var before := directory.processFile;
    config.UpdateApplicationID("12345678");
    var config2 := Config.Load(directory, secondKey);
    key2, applicationID := config2.secretKey, config2.applicationID;
    recordUntouched := directory.processFile == before;
  }

  /** "Test new process written": the persisted record carries the pid given to run. */
  method NewProcessWritten(freshKey: string) returns (pid: Option<int>)
    ensures pid == Some(9999)
  {
    var directory := new ConfigDirectory.Empty();
    var _ := Config.Load(directory, freshKey);
    var _ := Run(directory, 9000, Lambda, 9999);
    pid := if directory.processFile.Some? then Some(directory.processFile.value.pid) else None;
  }

  /** "Test existing process loaded": the probe asks about 9999, which is alive. */
  method ExistingProcessLoaded(freshKey: string) returns (p: Option<ProcessRecord>, probes: seq<Delivery>)
    ensures p.Some? && p.value.pid == 9999
    ensures probes == [Delivery(9999, Probe)]
  {
    var directory := new ConfigDirectory.Empty();
    var _ := Config.Load(directory, freshKey);
    var _ := Run(directory, 9000, Lambda, 9999);
    var processes := new ProcessTable({9999});
    p := Running(directory, processes);
    probes := processes.delivered;
  }

  /** "Test existing process not running": 9999 is dead, so no process, though the record stays. */
  method ExistingProcessNotRunning(freshKey: string)
    returns (p: Option<ProcessRecord>, probes: seq<Delivery>, recordKept: bool)
    ensures p == None && recordKept
    ensures probes == [Delivery(9999, Probe)]
  {
    var directory := new ConfigDirectory.Empty();
    var _ := Config.Load(directory, freshKey);
    var _ := Run(directory, 9000, Lambda, 9999);
    var processes := new ProcessTable({});
    p := Running(directory, processes);
    probes := processes.delivered;
    recordKept := directory.processFile.Some? && directory.processFile.value.pid == 9999;
  }

  /** "#kill()": killing the running record sends signal 0 to probe and then "SIGKILL", both
      to the recorded pid and to no other. */
  method KillRunningProcess(freshKey: string, port: int, pid: int)
    returns (signals: seq<Delivery>)
    ensures signals == [Delivery(pid, Probe), Delivery(pid, SigKill)]
  {
    var directory := new ConfigDirectory.Empty();
    var _ := Config.Load(directory, freshKey);
    var _ := Run(directory, port, Lambda, pid);
    var processes := new ProcessTable({pid});
    var p := Running(directory, processes);
    processes.Kill(p.value.pid);
    signals := processes.delivered;
  }
}
