/**
 * The Radvd item of the network-instance reconciler (router advertisement
 * daemon bound to one interface) and its Configurator: item identity,
 * equality and dependencies, the configurator's recreate-always policy,
 * the deterministic config/PID file names and the daemon command line.
 */
module Radvd {
  import opened Wrappers
  import opened Text

  /** RadvdTypename; its declaration is not part of this model, so the value is chosen here. */
  const RadvdTypename: string := "Radvd"

  datatype ItemRef = ItemRef(itemType: string, itemName: string)

  /** genericitems.NetworkIf: an interface name plus the reference to the item that creates it. */
  datatype NetworkIf = NetworkIf(ifName: string, itemRef: ItemRef)

  datatype Radvd = Radvd(forNI: Uuid, listenIf: NetworkIf)

  datatype Dependency = Dependency(requiredItem: ItemRef, description: string)

  /** What a configurator receives: a Radvd, or an item of some other Go type (named as %T prints it). */
  datatype Item = RadvdItem(radvd: Radvd) | OtherItem(goType: string)

  // ------------------------------------------------------------- the item

  /** The item's name is the listen interface's name. */
  function Name(r: Radvd): (n: string)
    ensures n == r.listenIf.ifName
  {
    r.listenIf.ifName
  }

  /** Every Radvd item has the same type. */
  function Type(r: Radvd): (t: string)
    ensures t == RadvdTypename
  {
    RadvdTypename
  }

  function Label(r: Radvd): (l: string)
    ensures l == "radvd for " + Name(r)
  {
    "radvd for " + r.listenIf.ifName
  }

  /**
   * The reconciler identifies an item by (Type, Name): two Radvd items share
   * an identity exactly when they listen on the same interface, so two radvd
   * instances can never listen on one interface at the same time.
   */
  lemma IdentityIsListenInterface(a: Radvd, b: Radvd)
    ensures (Type(a), Name(a)) == (Type(b), Name(b)) <==> a.listenIf.ifName == b.listenIf.ifName
  {
  }

  /** Equal: the other item must be a Radvd too (the Go type assertion panics otherwise). */
  function Equal(r: Radvd, other: Item): (b: bool)
    requires other.RadvdItem?
    ensures b <==> r == other.radvd
  {
    var r2 := other.radvd;
    r.forNI == r2.forNI && r.listenIf == r2.listenIf
  }

  /** Equal is value equality, hence reflexive and symmetric; a different NI forces inequality. */
  lemma EqualIsEquivalence(a: Radvd, b: Radvd)
    ensures Equal(a, RadvdItem(a))
    ensures Equal(a, RadvdItem(b)) <==> Equal(b, RadvdItem(a))
    ensures a.forNI != b.forNI ==> !Equal(a, RadvdItem(b))
  {
  }

  function External(r: Radvd): (e: bool)
    ensures !e
  {
    false
  }

  function Dependencies(r: Radvd): (deps: seq<Dependency>)
    ensures |deps| == 1 && deps[0].requiredItem == r.listenIf.itemRef
  {
    [Dependency(r.listenIf.itemRef, "interface on which radvd listens must exist")]
  }

  // ---------------------------------------------------------------- files

  /**
   * filepath.Join for a clean directory and a file name without '/'; for
   * such a name (which can be neither "." nor "..") filepath.Clean changes
   * nothing.
   */
  function Join(dir: string, file: string): string
  {
    dir + "/" + file
  }

  /** radvdConfigPath: the instance's file in the run directory, ending in ".conf". */
  function ConfigPath(runDir: string, instanceName: string): (p: string)
    ensures |p| == |runDir| + |instanceName| + 12
    ensures p[..|runDir| + 7] == runDir + "/radvd." && p[|p| - 5..] == ".conf"
    ensures p[|runDir| + 7..|p| - 5] == instanceName
  {
    Join(runDir, "radvd." + instanceName + ".conf")
  }

  /** radvdPidFile: the instance's file in the run directory, ending in ".pid". */
  function PidPath(runDir: string, instanceName: string): (p: string)
    ensures |p| == |runDir| + |instanceName| + 11
    ensures p[..|runDir| + 7] == runDir + "/radvd." && p[|p| - 4..] == ".pid"
    ensures p[|runDir| + 7..|p| - 4] == instanceName
  {
    Join(runDir, "radvd." + instanceName + ".pid")
  }

  /** Distinct instance names (interface names, which hold no '/') never share a config file. */
  lemma ConfigPathInjective(runDir: string, a: string, b: string)
    requires '/' !in a && '/' !in b
    requires ConfigPath(runDir, a) == ConfigPath(runDir, b)
    ensures a == b
  {
    assert ConfigPath(runDir, a) == (runDir + "/radvd.") + a + ".conf";
    assert ConfigPath(runDir, b) == (runDir + "/radvd.") + b + ".conf";
    ConcatCancel(runDir + "/radvd.", a, b, ".conf");
  }

  /** Distinct instance names (interface names, which hold no '/') never share a PID file. */
  lemma PidPathInjective(runDir: string, a: string, b: string)
    requires '/' !in a && '/' !in b
    requires PidPath(runDir, a) == PidPath(runDir, b)
    ensures a == b
  {
    assert PidPath(runDir, a) == (runDir + "/radvd.") + a + ".pid";
    assert PidPath(runDir, b) == (runDir + "/radvd.") + b + ".pid";
    ConcatCancel(runDir + "/radvd.", a, b, ".pid");
  }

  /** No config file of any instance is the PID file of any instance (they end in 'f' and 'd'). */
  lemma ConfigPathIsNeverPidPath(runDir: string, a: string, b: string)
    ensures ConfigPath(runDir, a) != PidPath(runDir, b)
  {
    var c, p := ConfigPath(runDir, a), PidPath(runDir, b);
    assert c[|c| - 1] == 'f';
    assert p[|p| - 1] == 'd';
  }

  const ConfigTemplateHead: string :=
    "\n# Automatically generated by zedrouter\n# Low preference to allow underlay to have high preference default\ninterface "
  const ConfigTemplateTail: string :=
    " {\n\tIgnoreIfMissing on;\n\tAdvSendAdvert on;\n\tMaxRtrAdvInterval 1800;\n\tAdvManagedFlag on;\n\tAdvLinkMTU 1280;\n\tAdvDefaultPreference low;\n\troute fd00::/8\n\t{\n\t\tAdvRoutePreference high;\n\t\tAdvRouteLifetime 1800;\n\t};\n};\n"

  /** radvdConfigTemplate with the listen interface substituted for its one %s. */
  function ConfigText(ifName: string): (t: string)
    ensures |t| == |ConfigTemplateHead| + |ifName| + |ConfigTemplateTail|
    ensures t[..|ConfigTemplateHead|] == ConfigTemplateHead && t[|t| - |ConfigTemplateTail|..] == ConfigTemplateTail
    ensures t[|ConfigTemplateHead|..|t| - |ConfigTemplateTail|] == ifName
  {
    ConfigTemplateHead + ifName + ConfigTemplateTail
  }

  /** Different interfaces get different configuration files' contents. */
  lemma ConfigTextInjective(a: string, b: string)
    requires ConfigText(a) == ConfigText(b)
    ensures a == b
  {
    ConcatCancel(ConfigTemplateHead, a, b, ConfigTemplateTail);
  }

  // ------------------------------------------------------------ processes

  const StartTimeoutSeconds: nat := 3
  const StopTimeoutSeconds: nat := 10

  /** A request to the process supervisor helper: startProcess(cmd, args, pidFile, timeout, background). */
  datatype ProcessStart = ProcessStart(cmd: string, args: seq<string>, pidFile: string, timeoutSeconds: nat, background: bool)

  /** A request to the process supervisor helper: stopProcess(pidFile, timeout). */
  datatype ProcessStop = ProcessStop(pidFile: string, timeoutSeconds: nat)

  /** startRadvd: radvd as user radvd, reading the instance's config file and writing its PID file. */
  function StartRadvd(runDir: string, instanceName: string): (p: ProcessStart)
    ensures p.cmd == "nohup" && p.background && p.timeoutSeconds == StartTimeoutSeconds
    ensures p.pidFile == PidPath(runDir, instanceName)
    ensures p.args == ["radvd", "-u", "radvd", "-C", ConfigPath(runDir, instanceName), "-p", p.pidFile]
  {
    var pidFile := PidPath(runDir, instanceName);
    ProcessStart("nohup", ["radvd", "-u", "radvd", "-C", ConfigPath(runDir, instanceName), "-p", pidFile],
                 pidFile, StartTimeoutSeconds, true)
  }

  /** stopRadvd: stop the process recorded in the instance's PID file. */
  function StopRadvd(runDir: string, instanceName: string): (p: ProcessStop)
    ensures p.pidFile == StartRadvd(runDir, instanceName).pidFile && p.timeoutSeconds == StopTimeoutSeconds
  {
    ProcessStop(PidPath(runDir, instanceName), StopTimeoutSeconds)
  }

  // --------------------------------------------------------- configurator

  /** How the two file operations of createRadvdConfigFile turn out. */
  datatype ConfigWrite = CreateFails(createErr: string) | WriteFails(writeErr: string) | Written

  function InvalidTypeError(goType: string): string
  {
    "invalid item type " + goType + ", expected Radvd"
  }

  /** Modify is not implemented for radvd. */
  function Modify(oldItem: Item, newItem: Item): (err: Option<string>)
    ensures err == Some("not implemented")
  {
    Some("not implemented")
  }

  /** Every change of a Radvd item is applied as delete followed by create. */
  function NeedsRecreate(oldItem: Item, newItem: Item): (recreate: bool)
    ensures recreate
  {
    true
  }

  /**
   * RadvdConfigurator with the part of the file system it touches: the
   * files under runDir (zedrouterRunDir), by path, with their contents.
   * Background work (ContinueInBackground) is returned to the caller as the
   * process request it would run and, for Delete, the value passed to done.
   */
  class RadvdConfigurator {
    const runDir: string
    var files: map<string, string>

    constructor (runDir: string, files: map<string, string>)
      ensures this.runDir == runDir && this.files == files
    {
      this.runDir := runDir;
      this.files := files;
    }

    /** Create: write the config file, then start radvd in the background. */
    method Create(item: Item, io: ConfigWrite) returns (err: Option<string>, start: Option<ProcessStart>)
      modifies this
      ensures item.OtherItem? ==>
                err == Some(InvalidTypeError(item.goType)) && start == None && files == old(files)
      ensures item.RadvdItem? ==>
                var name := Name(item.radvd);
                var cfgPath := ConfigPath(runDir, name);
                match io
                case CreateFails(e) =>
                  err == Some("failed to create radvd config file " + cfgPath + ": " + e)
                  && start == None && files == old(files)
                case WriteFails(e) =>
                  err == Some("failed to write radvd config to file " + cfgPath + ": " + e)
                  && start == None && files == old(files)[cfgPath := ""]
                case Written =>
                  err == None && start == Some(StartRadvd(runDir, name))
                  && files == old(files)[cfgPath := ConfigText(item.radvd.listenIf.ifName)]
    {
      if item.OtherItem? {
        return Some(InvalidTypeError(item.goType)), None;
      }
      var radvd := item.radvd;
      var cfgPath := ConfigPath(runDir, Name(radvd));
      match io {
        case CreateFails(e) =>
          return Some("failed to create radvd config file " + cfgPath + ": " + e), None;
        case WriteFails(e) =>
          files := files[cfgPath := ""];
          return Some("failed to write radvd config to file " + cfgPath + ": " + e), None;
        case Written =>
          files := files[cfgPath := ConfigText(radvd.listenIf.ifName)];
      }
      err, start := None, Some(StartRadvd(runDir, Name(radvd)));
    }

    /**
     * Delete: stop radvd in the background (stopErr is the outcome of
     * stopProcess); only when it stopped are the config and PID files
     * removed, and the stop error is what the background work reports.
     */
    method Delete(item: Item, stopErr: Option<string>)
      returns (err: Option<string>, stop: Option<ProcessStop>, done: Option<Option<string>>)
      modifies this
      ensures item.OtherItem? ==>
                err == Some(InvalidTypeError(item.goType)) && stop == None && done == None
                && files == old(files)
      ensures item.RadvdItem? ==>
                var name := Name(item.radvd);
                err == None && stop == Some(StopRadvd(runDir, name)) && done == Some(stopErr)
                && files == if stopErr == None
                            then old(files) - {ConfigPath(runDir, name), PidPath(runDir, name)}
                            else old(files)
    {
      if item.OtherItem? {
        return Some(InvalidTypeError(item.goType)), None, None;
      }
      var name := Name(item.radvd);
      stop := Some(StopRadvd(runDir, name));
      if stopErr == None {
        // Removal errors are ignored: a missing file simply stays missing.
        files := files - {ConfigPath(runDir, name)};
        files := files - {PidPath(runDir, name)};
      }
      err, done := None, Some(stopErr);
    }
  }

  /** A radvd created and then stopped leaves neither its config file nor its PID file behind. */
  method CreateThenDelete(runDir: string, files: map<string, string>, r: Radvd)
    returns (remaining: map<string, string>)
    ensures ConfigPath(runDir, Name(r)) !in remaining && PidPath(runDir, Name(r)) !in remaining
    ensures forall p :: p in files && p != ConfigPath(runDir, Name(r)) && p != PidPath(runDir, Name(r))
                        ==> p in remaining && remaining[p] == files[p]
  {
    var c := new RadvdConfigurator(runDir, files);
    var err, start := c.Create(RadvdItem(r), Written);
    assert err == None;
    var err2, stop, done := c.Delete(RadvdItem(r), None);
    assert done == Some(None);
    remaining := c.files;
  }
}
