/**
 * The QEMU Machine Protocol helpers of the hypervisor package: a raw
 * command with a bounded connect-retry, the fixed command strings, the
 * mapping of QMP query-status run states to the agent's SwState, and the
 * reaction to a SHUTDOWN event.
 */
module Qmp {
  import opened Wrappers
  import opened Text

  /**
   * The run states of types.SwState that this code produces. `Unset` is the
   * Go zero value of the type that getQemuStatus returns beside an error.
   */
  datatype SwState = Unset | Unknown | Running | Pausing | Paused | Halting

  // ------------------------------------------------------------ commands

  datatype Command = Cont | Stop | SystemPowerdown | Quit | QueryStatus | ChangeVncPassword(password: string)

  const ExecuteHead: string := "{ \"execute\": \""
  const VncHead: string := ExecuteHead + "change-vnc-password\", \"arguments\": { \"password\": \""
  const VncTail: string := "\" } }"

  /**
   * The JSON text sent for each command: an "execute" object, with the VNC
   * password put between the quotes exactly as given (it is not escaped).
   */
  function CommandText(c: Command): (t: string)
    ensures |t| > 14 && t[..14] == ExecuteHead && t[|t| - 1] == '}'
    ensures c.ChangeVncPassword? ==>
              |t| == |VncHead| + |c.password| + |VncTail| && t[|VncHead|..|t| - |VncTail|] == c.password
  {
    match c
    case Cont => "{ \"execute\": \"cont\" }"
    case Stop => "{ \"execute\": \"stop\" }"
    case SystemPowerdown => "{ \"execute\": \"system_powerdown\" }"
    case Quit => "{ \"execute\": \"quit\" }"
    case QueryStatus => "{ \"execute\": \"query-status\" }"
    case ChangeVncPassword(p) =>
      var t := VncHead + p + VncTail;
      assert t[..14] == VncHead[..14] == ExecuteHead;
      t
  }

  /** Different commands are different texts, so the monitor can tell them apart. */
  lemma CommandTextInjective(a: Command, b: Command)
    requires CommandText(a) == CommandText(b)
    ensures a == b
  {
    var ta, tb := CommandText(a), CommandText(b);
    if a.ChangeVncPassword? && b.ChangeVncPassword? {
      ConcatCancel(VncHead, a.password, b.password, VncTail);
    } else if a.ChangeVncPassword? || b.ChangeVncPassword? {
      // a password command is longer than every fixed command
      assert false;
    } else {
      assert ta[14] == tb[14];
      assert ta[15] == tb[15];
    }
  }

  // --------------------------------------------------------- execRawCmd

  /** execRawCmd starts with retry = 3 and loops while retry >= 0. */
  const MaxAttempts: nat := 4

  /** The number of dials execRawCmd makes from the k-th on: it stops at the first success or at the fourth. */
  function DialsFrom(dial: nat -> Option<string>, k: nat): (n: nat)
    requires k < MaxAttempts
    ensures k < n <= MaxAttempts
    ensures forall j :: k <= j < n - 1 ==> dial(j).Some?
    ensures dial(n - 1).None? || n == MaxAttempts
    decreases MaxAttempts - k
  {
    if dial(k).None? || k == MaxAttempts - 1 then k + 1 else DialsFrom(dial, k + 1)
  }

  /**
   * What execRawCmd returns: the error of the fourth dial when all four fail;
   * once one dial succeeds, Connect's error or else Run's result.
   */
  function RawCmdReply(dial: nat -> Option<string>, connectErr: Option<string>, run: Result<string>)
    : (r: Result<string>)
    ensures (forall k :: 0 <= k < MaxAttempts ==> dial(k).Some?) ==> r == Err(dial(MaxAttempts - 1).value)
    ensures (exists k :: 0 <= k < MaxAttempts && dial(k).None?) ==>
              r == if connectErr.Some? then Err(connectErr.value) else run
  {
    var n := DialsFrom(dial, 0);
    if dial(n - 1).Some? then Err(dial(n - 1).value)
    else if connectErr.Some? then Err(connectErr.value)
    else run
  }

  /**
   * execRawCmd. The environment is given as inputs: dial(k) is the outcome of
   * the k-th qmp.NewSocketMonitor call (None is success), connectErr that of
   * Connect and run that of Run. After every failed dial the code sleeps for a
   * second, the last failure included.
   */
  method ExecRawCmd(socket: string, cmd: string, dial: nat -> Option<string>,
                    connectErr: Option<string>, run: Result<string>)
    returns (reply: Result<string>, attempts: nat, sleeps: nat)
    ensures 1 <= attempts <= MaxAttempts
    ensures forall k :: 0 <= k < attempts - 1 ==> dial(k).Some?
    ensures dial(attempts - 1).None? || attempts == MaxAttempts
    ensures sleeps == if dial(attempts - 1).None? then attempts - 1 else attempts
    ensures dial(attempts - 1).Some? ==> reply == Err(dial(attempts - 1).value)
    ensures dial(attempts - 1).None? && connectErr.Some? ==> reply == Err(connectErr.value)
    ensures dial(attempts - 1).None? && connectErr.None? ==> reply == run
    ensures attempts == DialsFrom(dial, 0) && reply == RawCmdReply(dial, connectErr, run)
  {
    var retry: int := 3;
    var err: Option<string> := None;
    attempts, sleeps := 0, 0;
    while retry >= 0
      invariant -1 <= retry <= 3 && attempts == 3 - retry && sleeps == attempts
      invariant forall k :: 0 <= k < attempts ==> dial(k).Some?
      invariant attempts > 0 ==> err == dial(attempts - 1)
    {
      err := dial(attempts);
      attempts := attempts + 1;
      if err == None {
        break;
      }
      retry := retry - 1;
      sleeps := sleeps + 1;
    }
    if err != None {
      return Err(err.value), attempts, sleeps;
    }
    if connectErr != None {
      return Err(connectErr.value), attempts, sleeps;
    }
    reply := run;
  }

  /** execContinue, execStop, execShutdown, execQuit, execVNCPassword: send one command, keep the error. */
  method Exec(socket: string, c: Command, dial: nat -> Option<string>,
              connectErr: Option<string>, run: Result<string>)
    returns (err: Option<string>)
    ensures var r := RawCmdReply(dial, connectErr, run); err == if r.Err? then Some(r.error) else None
    ensures (forall k :: 0 <= k < MaxAttempts ==> dial(k).Some?) ==> err == Some(dial(MaxAttempts - 1).value)
    ensures (exists k :: 0 <= k < MaxAttempts && dial(k).None?) ==>
              err == if connectErr.Some? then connectErr else if run.Err? then Some(run.error) else None
  {
    var reply, attempts, sleeps := ExecRawCmd(socket, CommandText(c), dial, connectErr, run);
    err := if reply.Err? then Some(reply.error) else None;
  }

  // --------------------------------------------------------- getQemuStatus

  /** The query-status map of getQemuStatus, from QEMU's RunState names. */
  const QmpStatusMap: map<string, SwState> := map[
    "finish-migrate" := Paused,
    "inmigrate" := Pausing,
    "paused" := Paused,
    "postmigrate" := Paused,
    "prelaunch" := Paused,
    "restore-vm" := Paused,
    "running" := Running,
    "save-vm" := Paused,
    "shutdown" := Halting,
    "suspended" := Paused,
    "watchdog" := Pausing,
    "colo" := Paused,
    "preconfig" := Paused
  ]

  const PausedStatuses: set<string> :=
    {"finish-migrate", "paused", "postmigrate", "prelaunch", "restore-vm", "save-vm", "suspended", "colo", "preconfig"}

  /** The map sends exactly "running" to RUNNING, "shutdown" to HALTING, two states to PAUSING and nine to PAUSED. */
  lemma StatusMapClassification(s: string)
    ensures s in QmpStatusMap <==> s in PausedStatuses || s in {"running", "shutdown", "inmigrate", "watchdog"}
    ensures s in QmpStatusMap && QmpStatusMap[s] == Running <==> s == "running"
    ensures s in QmpStatusMap && QmpStatusMap[s] == Halting <==> s == "shutdown"
    ensures s in QmpStatusMap && QmpStatusMap[s] == Pausing <==> s == "inmigrate" || s == "watchdog"
    ensures s in QmpStatusMap && QmpStatusMap[s] == Paused <==> s in PausedStatuses
    ensures |PausedStatuses| == 9
  {
  }

  /** What json.Decoder with DisallowUnknownFields makes of a reply: the status field, or an error. */
  datatype Decoded = DecodeError(msg: string) | QueryStatusReply(id: string, running: bool, singlestep: bool, status: string)

  predicate Embeds(text: string, part: string)
  {
    exists i :: 0 <= i <= |text| && OccursAt(text, part, i)
  }

  /**
   * getQemuStatus: `exec` is what execRawCmd returned for query-status and
   * `decode` the JSON decoder. A failed command gives UNKNOWN; a decode error
   * or a status outside the map gives the zero state and an error that quotes
   * the raw reply.
   */
  function GetQemuStatus(socket: string, exec: Result<string>, decode: string -> Decoded)
    : (r: (SwState, Option<string>))
    ensures exec.Err? ==> r == (Unknown, Some(exec.error))
    ensures exec.Ok? ==>
              (r.1 == None <==> decode(exec.value).QueryStatusReply? && decode(exec.value).status in QmpStatusMap)
    ensures exec.Ok? && r.1 == None ==> r.0 == QmpStatusMap[decode(exec.value).status]
    ensures exec.Ok? && r.1 != None ==> r.0 == Unset && Embeds(r.1.value, exec.value)
  {
    match exec
    case Err(e) => (Unknown, Some(e))
    case Ok(raw) =>
      match decode(raw)
      case DecodeError(msg) =>
        var head := msg + "; (JSON received: '";
        var m := head + raw + "')";
        assert OccursAt(m, raw, |head|);
        (Unset, Some(m))
      case QueryStatusReply(_, _, _, status) =>
        if status in QmpStatusMap then (QmpStatusMap[status], None)
        else
          var head := "unknown QMP status '" + status + "' for QMP socket '" + socket + "'; (JSON response: '";
          var m := head + raw + "')";
          assert OccursAt(m, raw, |head|);
          (Unset, Some(m))
  }

  // ------------------------------------------------------------- events

  /**
   * qmpEventHandler's reaction to one event: on SHUTDOWN it sends stop and
   * then quit to the executor socket (quit is sent whether or not stop
   * failed); every other event is ignored.
   */
  function EventCommands(event: string): (cmds: seq<Command>)
    ensures event == "SHUTDOWN" ==> cmds == [Stop, Quit]
    ensures event != "SHUTDOWN" ==> cmds == []
  {
    if event == "SHUTDOWN" then [Stop, Quit] else []
  }
}
