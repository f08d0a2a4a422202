# A verified model of pieces of EVE's device agents

EVE is the edge operating system of LF Edge. This project models, in Dafny,
several self-contained parts of its agents and proves properties of them.

- **Radvd** (`radvd.dfy`) — the network-instance reconciler's router
  advertisement daemon item and its configurator. It covers the item's
  identity, equality and single dependency. The configurator recreates on
  every change and never modifies in place. It also covers the config and PID
  file names, the daemon's command line, and what Create and Delete do to the
  run directory.
- **Profile** and **Lps** (`profile.dfy`, `lps.dfy`) — zedagent's profile
  state in its two variants. Each tracks the global profile from the
  controller, the local profile server (LPS) address, the local profile
  received from that server, and the current profile derived from them. Each
  variant is a class over the agent's context fields. What the variants share
  word for word is in **LpsClient** (`lpsclient.dfy`):
  - the base URL of the server, over a model of `url.Parse` for `http://`
    URLs;
  - the loop that asks every known server for the profile;
  - the checkpoint file the received profile is saved in;
  - the non-blocking notification channel.
- **Itr** (`itr.dfy`) — the ITR thread table of the LISP data plane. A map
  from interface name to each thread's command channel is reconciled in place
  against the configured interfaces. A channel is modelled as the log of the
  messages sent on it.
- **Cgroups** (`cgroups.dfy`) — the memory monitor's cgroup helpers:
  - reading and parsing `memory.limit_in_bytes`, `memory.usage_in_bytes` and
    the `total_cache` line of `memory.stat`;
  - the threshold test in 64-bit unsigned arithmetic;
  - the overflow-checked limit adjustment;
  - the validation of a cgroup's control files.
- **DeviceNetwork** (`devicenetwork.dfy`) — building the device network
  status from the configured uplinks and their address lists. Geolocation is
  carried over from the previous status.
- **Qmp** (`qmp.dfy`) — the QEMU Machine Protocol helpers:
  - the connect retry;
  - the command texts;
  - the mapping of QMP run states to the agent's domain states;
  - the reaction to a SHUTDOWN event.
- **HardwareInfo** (`hardwareinfo.dfy`) — the hardware report. It shapes SMART
  data per disk, builds the deferred-send key, and dispatches to the
  controller and the local operator console.
- **PubSub** (`pubsub.dfy`) — the goroutine-ID parse of a stack-trace buffer
  and the datastore lookup guard.
- `wrappers.dfy` (Option, Result) and `text.dfy` (bytes, decimal and
  hexadecimal text, searches in sequences, UUID text) are shared helpers. They
  model Go and C library behaviour such as `strconv`, `bytes.Index`, `%x` and
  C strings.

The environment enters the model explicitly:
  - Files, sockets and the network are inputs: the outcome of each read,
    open or dial.
  - Helpers whose code is not part of this model are function-typed
    parameters: `strtoudec`, `convert_mb_to_bytes_signed`, a subscription's
    `Get`, the JSON and protobuf codecs, `netlink.LinkByName`,
    `zedcloud.SendLocalProto` and `zedcloud.URLPathString`.
  - Go map iteration visits keys in an arbitrary order: `x :| x in remaining`.

Fixed-width integers are written out where they matter: `unsigned long`,
`long`, `uint32` and `uint64` truncation, and unsigned wrap-around.

## Model

| member | source | states |
|---|---|---|
| Radvd.Name | pkg/pillar/nireconciler/genericitems/radvd.go:34-36 | The item is named after its listen interface. |
| Radvd.Type | pkg/pillar/nireconciler/genericitems/radvd.go:44-46 | Every Radvd item has the same type, RadvdTypename. |
| Radvd.Label | pkg/pillar/nireconciler/genericitems/radvd.go:39-41 | The label is "radvd for " followed by the item's Name, the listen interface. |
| Radvd.IdentityIsListenInterface | pkg/pillar/nireconciler/genericitems/radvd.go:31-46 | Two items have the same (Type, Name) identity exactly when they listen on the same interface, so two instances can never share an interface. |
| Radvd.Equal | pkg/pillar/nireconciler/genericitems/radvd.go:49-53 | Equal holds exactly when both ForNI and ListenIf agree, that is, value equality. |
| Radvd.EqualIsEquivalence | pkg/pillar/nireconciler/genericitems/radvd.go:49-53 | Equal is reflexive and symmetric, and items for different network instances are never equal. |
| Radvd.External | pkg/pillar/nireconciler/genericitems/radvd.go:56-58 | The item is never external. |
| Radvd.Dependencies | pkg/pillar/nireconciler/genericitems/radvd.go:68-74 | There is exactly one dependency, on the listen interface's item. |
| Radvd.ConfigPath | pkg/pillar/nireconciler/genericitems/radvd.go:150-152 | The config file is `<runDir>/radvd.<name>.conf`: the directory and "/radvd." prefix, then the instance name, then ".conf". |
| Radvd.PidPath | pkg/pillar/nireconciler/genericitems/radvd.go:154-156 | The PID file is `<runDir>/radvd.<name>.pid`, with the instance name between the same prefix and ".pid". |
| Radvd.ConfigPathInjective | pkg/pillar/nireconciler/genericitems/radvd.go:150-152 | Distinct instance names without '/' (interface names) have distinct config files `<runDir>/radvd.<name>.conf`. |
| Radvd.PidPathInjective | pkg/pillar/nireconciler/genericitems/radvd.go:154-156 | Distinct instance names without '/' (interface names) have distinct PID files `<runDir>/radvd.<name>.pid`. |
| Radvd.ConfigPathIsNeverPidPath | pkg/pillar/nireconciler/genericitems/radvd.go:150-156 | No instance's config file is any instance's PID file. |
| Radvd.ConfigText | pkg/pillar/nireconciler/genericitems/radvd.go:76-92 | The config file text is the template head, then the interface name verbatim in place of the one %s, then the template tail. |
| Radvd.ConfigTextInjective | pkg/pillar/nireconciler/genericitems/radvd.go:76-92 | The generated configuration determines the interface it was generated for. |
| Radvd.StartRadvd | pkg/pillar/nireconciler/genericitems/radvd.go:177-187 | radvd is started through nohup in the background: as user radvd, with the instance's config file, writing the instance's PID file, with the 3-second timeout. |
| Radvd.StopRadvd | pkg/pillar/nireconciler/genericitems/radvd.go:189-192 | Stopping uses the PID file the start wrote, with the 10-second timeout. |
| Radvd.Modify | pkg/pillar/nireconciler/genericitems/radvd.go:122-124 | Modify always fails with "not implemented". |
| Radvd.NeedsRecreate | pkg/pillar/nireconciler/genericitems/radvd.go:146-148 | Every change is applied by recreating the item. |
| Radvd.RadvdConfigurator.Create | pkg/pillar/nireconciler/genericitems/radvd.go:105-119 | A non-Radvd item is refused with no effect. A failed create or write of the config file (lines 158-174) is reported and starts nothing. Otherwise the file holds the template filled with the interface, and the daemon start is requested. |
| Radvd.RadvdConfigurator.Delete | pkg/pillar/nireconciler/genericitems/radvd.go:127-143 | A non-Radvd item is refused with no effect. The stop is requested in the background, and its error is what the background work reports. The config and PID files are removed only if the stop succeeded. |
| Radvd.CreateThenDelete | pkg/pillar/nireconciler/genericitems/radvd.go:105-143 | A successful create followed by a successful delete leaves neither file behind, and every other file as it was. |
| LpsClient.Authority | pkg/pillar/cmd/zedagent/handleProfile.go:30-31 | The authority url.Parse finds in "http://" + addr is a prefix of addr containing no '#', '?' or '/'. |
| LpsClient.HostError | pkg/pillar/cmd/zedagent/handleProfile.go:31 | The host checks fail only with the missing ']' error or with an invalid port. |
| LpsClient.Port | pkg/pillar/cmd/zedagent/handleProfile.go:35 | URL.Port() is all digits, and when it is not empty the host ends in ':' followed by it. |
| LpsClient.MakeLPSBaseURL | pkg/pillar/cmd/zedagent/handleProfile.go:29-39 | The URL is built exactly when url.Parse accepts it. It is "http://" + addr, with ":8888" appended exactly when the parsed URL has no port. Otherwise the error is "url.Parse: " followed by the parse error. |
| LpsClient.ParseUnsplit | pkg/pillar/cmd/zedagent/handleProfile.go:31 | An address without a separator character is parsed as a host alone: only the host checks can fail, and the port is the host's port. |
| LpsClient.BaseURLOfUnsplit | pkg/pillar/cmd/zedagent/handleProfile.go:29-39 | For such an address the base URL follows from the host checks and the port, in all three cases. |
| LpsClient.PlainHostGetsDefaultPort | pkg/pillar/cmd/zedagent/handleProfile.go:35-37 | A bare host name gets the default port 8888. |
| LpsClient.PlainHostHasNoPort | pkg/pillar/cmd/zedagent/handleProfile.go:35 | A bare host name passes the host checks and has no port. |
| LpsClient.HostColonTail | pkg/pillar/cmd/zedagent/handleProfile.go:31-35 | For a host, a colon and a tail: the tail is the port when it is all digits, and an invalid port otherwise. |
| LpsClient.ExplicitPortIsKept | pkg/pillar/cmd/zedagent/handleProfile.go:35-38 | An address with a numeric port is used unchanged. |
| LpsClient.InvalidPortIsRefused | pkg/pillar/cmd/zedagent/handleProfile.go:31-34 | A port with a non-digit is refused with url.Parse's invalid-port error. |
| LpsClient.EmptyPortGetsSecondColon | pkg/pillar/cmd/zedagent/handleProfile.go:35-37 | "host:" has an empty port, so the default port is appended after a second colon. |
| LpsClient.BracketedAddressGetsDefaultPort | pkg/pillar/cmd/zedagent/handleProfile.go:35-37 | A bracketed IPv6 address without a port gets the default port. |
| LpsClient.MissingBracketIsRefused | pkg/pillar/cmd/zedagent/handleProfile.go:31-34 | An opening bracket without a closing one is refused with url.Parse's missing-']' error. |
| LpsClient.GetLPSConfig | pkg/pillar/cmd/zedagent/handleProfile.go:114-159 | A failed updateLPSMap is reported first. An empty server map is an error naming the URL. Otherwise a profile comes back exactly when some server answers status 200 with the configured token. It is the answer of the first such server of its bridge and carries the configured token. When no server qualifies, the error is "all attempts failed". |
| LpsClient.FetchProfile | pkg/pillar/cmd/zedagent/handleProfile.go:266-271 | getLPS's fetch succeeds exactly when getLPSConfig would return a profile. The profile it gets is an accepted server's answer and carries the configured token. |
| LpsClient.SaveOrTouchOps | pkg/pillar/cmd/zedagent/handleProfile.go:163-177 | The checkpoint is only touched exactly when the known profile and token equal the received ones and the file exists. Otherwise the marshalled profile is saved, or nothing happens if marshalling fails. |
| LpsClient.SaveOrTouchKeepsFile | pkg/pillar/cmd/zedagent/handleProfile.go:163-177 | The checkpoint file exists afterwards whenever it existed before. |
| LpsClient.SecondReceiptTouches | pkg/pillar/cmd/zedagent/handleProfile.go:163-177 | Receiving a profile again, once it is the known one and is on disk, only touches the file. |
| LpsClient.GetLPSResult | pkg/pillar/cmd/zedagent/handleProfile.go:249-275 | With no server the answer is "". A skipped fetch returns the last known profile, an address that does not make a URL returns "", and a received profile is returned by name. The answer differs from the last known profile only when there is no server, or a fetch was attempted and either the URL could not be built or a profile arrived. |
| LpsClient.GetLPSActions | pkg/pillar/cmd/zedagent/handleProfile.go:249-275 | getLPS cleans the checkpoint exactly when the server is gone and a profile was known, and performs at most one checkpoint action. |
| LpsClient.AnswerWithFetches | pkg/pillar/cmd/zedagent/handleProfile.go:134-157 | When every server answers status 200 with profile p and the token, any server map with a server on some bridge makes the fetch succeed, and p is the only profile that can be returned. |
| LpsClient.AnswerWithResult | pkg/pillar/cmd/zedagent/handleProfile.go:261-274 | For a bare-host server address and a server map whose servers all answer with p, getLPS returns p's name. |
| LpsClient.NotifyChannel.TrySend | pkg/pillar/cmd/zedagent/handleProfile.go:216-222 | A non-blocking send queues a notification when there is room, and is dropped when the channel is full. |
| Profile.ProfileContext.DetermineCurrentProfile | pkg/pillar/cmd/zedagent/handleProfile.go:208-213 | The current profile is the local profile when there is one, else the global profile. It is empty only if both are. |
| Profile.ProfileContext.TriggerGetLPS | pkg/pillar/cmd/zedagent/handleProfile.go:216-222 | localProfileTrigger gains a notification when it has room, and is unchanged when full. |
| Profile.ProfileContext.SaveOrTouchReceivedLPS | pkg/pillar/cmd/zedagent/handleProfile.go:163-177 | Compares against ctx.localProfile: the checkpoint gets SaveOrTouchOps's actions, and its existence follows from them. |
| Profile.ProfileContext.GetLPS | pkg/pillar/cmd/zedagent/handleProfile.go:249-275 | The answer is GetLPSResult of the server, the last known profile and the fetch outcome. A fetch happens exactly when there is a server, fetching is not skipped, the URL builds and a server qualifies. A fetched profile is a server's accepted answer. The checkpoint actions are GetLPSActions. |
| Profile.ProfileContext.ProfileStateMachine | pkg/pillar/cmd/zedagent/handleProfile.go:228-242 | The local profile becomes getLPS's answer, and the current profile is DetermineCurrentProfile. The status is published exactly when the current profile changed. Whether the checkpoint exists afterwards follows from its recorded actions. The server address, token, throttled location and notices are untouched. The lpsMap fields are also held unchanged, because updateLPSMap is not modelled. |
| Profile.ProfileContext.Adopt | pkg/pillar/cmd/zedagent/handleProfile.go:229-241 | After getLPS: the local profile is stored, the current profile is derived again, and it is published exactly on a change. |
| Profile.ProfileContext.ParseProfile | pkg/pillar/cmd/zedagent/handleProfile.go:181-205 | The global profile, token and server address come from the configuration. Only a changed address triggers the fetch task, notifies the other tasks in order and resets the throttled location. No server is asked. An empty address clears the local profile, and cleans the checkpoint if a profile was known. Afterwards the configuration counts as applied. Applying an applied configuration again publishes nothing, notifies no one, leaves the checkpoint and the trigger alone, and keeps the local and current profiles. Whether the checkpoint exists afterwards follows from its recorded actions. |
| Profile.ServerAddressIsNotAProfile | pkg/pillar/cmd/zedagent/handleProfile.go:190-213 | A newly configured server address leaves the local profile empty and the current profile at the global one. |
| Profile.FetchedProfileKeepsServerAddress | pkg/pillar/cmd/zedagent/handleProfile.go:228-275 | A profile fetched from the server becomes the local and current profile, and the server address stays configured. |
| Lps.LpsContext.DetermineCurrentProfile | pkg/pillar/cmd/zedagent/handlelps.go:208-213 | The current profile is ctx.lps when it is non-empty, else the global profile. |
| Lps.LpsContext.TriggerGetLPS | pkg/pillar/cmd/zedagent/handlelps.go:216-222 | lpsTrigger gains a notification when it has room, and is unchanged when full. |
| Lps.LpsContext.SaveOrTouchReceivedLPS | pkg/pillar/cmd/zedagent/handlelps.go:163-177 | Touch or save as in the first variant, but the received profile is compared with ctx.lps. |
| Lps.LpsContext.GetLPS | pkg/pillar/cmd/zedagent/handlelps.go:249-275 | As in the first variant, with ctx.lps as both the server and the last known profile. The checkpoint is never cleaned: that branch re-tests ctx.lps != "". |
| Lps.LpsContext.ProfileStateMachine | pkg/pillar/cmd/zedagent/handlelps.go:228-242 | ctx.lps becomes getLPS's answer, and the current profile is derived again. The status is published exactly on a change. Without a fetch, from a derived current profile, nothing changes: ctx.lps, the current profile, the publishes and the checkpoint stay as they were. Whether the checkpoint exists afterwards follows from its recorded actions. The lpsMap fields are held unchanged, as in the first variant. |
| Lps.LpsContext.Adopt | pkg/pillar/cmd/zedagent/handlelps.go:229-241 | getLPS's answer is stored into ctx.lps, and the current profile is derived and published as in the first variant. |
| Lps.LpsContext.ParseProfile | pkg/pillar/cmd/zedagent/handlelps.go:181-205 | As in the first variant. The state machine without fetching leaves ctx.lps at the configured address and never touches the checkpoint. Applying an applied configuration again publishes nothing, notifies no one and leaves the trigger alone. Whether the checkpoint exists afterwards follows from its recorded actions. |
| Lps.ServerAddressBecomesCurrentProfile | pkg/pillar/cmd/zedagent/handlelps.go:190-213 | A configured server address becomes the current profile. |
| Lps.FetchedProfileReplacesServerAddress | pkg/pillar/cmd/zedagent/handlelps.go:228-275 | A fetched profile replaces the server address, so the next fetch goes to a server named after the profile. |
| Itr.PortMessage | manageitretr.go:120-124 | The message that hands a thread the crypto port has Quit unset, the port marked valid, and the port itself. |
| Itr.ThreadTable.InitThreadTable | manageitretr.go:28-30 | The table is empty afterwards. |
| Itr.ThreadTable.HandleItrCryptoPort | manageitretr.go:38-49 | The port is recorded. Every entry's channel gets exactly one port message. The table and every channel not in it are unchanged. |
| Itr.ThreadTable.SendTo | manageitretr.go:46-48 | One send appends the message to that entry's channel only. |
| Itr.ThreadTable.ManageItrThreads | manageitretr.go:56-129 | The names in the table are afterwards exactly the configured interface names. A dropped entry's channel gets exactly one quit message, and a kept entry keeps its channel with nothing sent. A new entry gets a fresh channel holding exactly one message with the current port. When the table already holds exactly the configured names, nothing changes: the same table, the same channels with nothing sent, no new channel. |
| Itr.ThreadTable.KillStaleThreads | manageitretr.go:64-96 | An entry stays exactly when it is needed. Each dropped entry's channel gets one quit message. Nothing else changes, and nothing at all when every entry is needed. |
| Itr.ThreadTable.Retire | manageitretr.go:68-94 | The quit message goes onto the entry's channel, and the entry leaves the table. |
| Itr.ThreadTable.CreateMissingThreads | manageitretr.go:98-128 | The table afterwards holds the old entries plus every needed name. Old entries are untouched. Each new one has a fresh channel holding exactly the port message. When every needed name has an entry, nothing changes. |
| Itr.ThreadTable.Spawn | manageitretr.go:100-126 | A new entry with a new channel, on which the current crypto port is sent. |
| Itr.CreatingStep | manageitretr.go:98-128 | One creation preserves the second loop's invariant. |
| Itr.SentToStep | manageitretr.go:46-48 | One send preserves HandleItrCryptoPort's loop invariant. |
| Itr.RetiringStep | manageitretr.go:65-96 | One visited entry, kept or dropped, preserves the first loop's invariant. |
| Itr.NeededInterfaces | manageitretr.go:57-62 | tmpMap is exactly the set of configured names: every configured name is in it, and each name in it is configured. Duplicates collapse. |
| Cgroups.ToULong | pkg/memory-monitor/src/monitor/cgroups.c:320 | Conversion to unsigned long is reduction modulo 2^64, and the identity on representable values. |
| Cgroups.LimitOf | pkg/memory-monitor/src/monitor/cgroups.c:158-179 | A limit is read exactly when the text starts with at least one digit and the digit prefix fits in an unsigned long. It is the value of that prefix. |
| Cgroups.CutAtFirstNonDigit | pkg/memory-monitor/src/monitor/cgroups.c:160-165 | The first non-digit within the bytes read is overwritten with NUL and nothing else changes. |
| Cgroups.StrtoulDigits | pkg/memory-monitor/src/monitor/cgroups.c:168-179 | strtoul of a digit string consumes all of it. It returns the value, or ULONG_MAX with ERANGE exactly when the value does not fit. |
| Cgroups.LimitReadCount | pkg/memory-monitor/src/monitor/cgroups.c:146 | read(2) as written returns up to 256 bytes, and exactly 256 for a file of 256 bytes or more. |
| Cgroups.TerminatorOverrunsBuffer | pkg/memory-monitor/src/monitor/cgroups.c:146-159 | A file of 256 bytes or more makes nread equal the buffer size, so `str_limit[nread]` lies outside the buffer. |
| Cgroups.LimitText | pkg/memory-monitor/src/monitor/cgroups.c:143-159 | The bytes read with room kept for the terminator: fewer than 256, a prefix of the file, and all of it when it is shorter. |
| Cgroups.GetMemoryLimit | pkg/memory-monitor/src/monitor/cgroups.c:130-183 | The status is 0 or -1. It is 0 exactly when the file opens, data is read and a limit parses from it, and then the limit is that value. |
| Cgroups.GetMemoryUsage | pkg/memory-monitor/src/monitor/cgroups.c:23-54 | Every failure gives 0: open or read fails, nothing is read, or strtoudec reports an error. Otherwise the usage is strtoudec's value of the text read, which is at most 255 bytes and ends at its first NUL. |
| Cgroups.TotalCacheKeyText | pkg/memory-monitor/src/monitor/cgroups.c:76 | The key bytes spell "total_cache". |
| Cgroups.TotalCacheOf | pkg/memory-monitor/src/monitor/cgroups.c:73-87 | A non-zero value is what strtoudec parses after the "total_cache " prefix of some total_cache line. |
| Cgroups.FirstTotalCacheLine | pkg/memory-monitor/src/monitor/cgroups.c:74-87 | The first line starting with total_cache extends past the prefix and decides the value, whatever follows. |
| Cgroups.NoTotalCacheLine | pkg/memory-monitor/src/monitor/cgroups.c:61-92 | A file without such a line yields 0. |
| Cgroups.GetTotalCache | pkg/memory-monitor/src/monitor/cgroups.c:57-93 | 0 if the file cannot be opened. Otherwise the value after the first total_cache line's prefix, or 0 if it fails to parse. |
| Cgroups.ThresholdReached | pkg/memory-monitor/src/monitor/cgroups.c:242 | As written, the test is `usage - cache >= threshold` in unsigned arithmetic, which wraps to 2^64 + usage - cache when the cache exceeds the usage. |
| Cgroups.ThresholdReachedSaturating | pkg/memory-monitor/src/monitor/cgroups.c:237-242 | As intended, usage net of cache, never below zero: the event fires exactly when usage >= cache + threshold, or the threshold is 0. |
| Cgroups.ThresholdFiresWhenCacheExceedsUsage | pkg/memory-monitor/src/monitor/cgroups.c:240-247 | A cache that exceeds the usage by at most 2^63 fires the test as written for every threshold below 2^63, while the intended test does not fire for a positive threshold. |
| Cgroups.ThresholdTestsAgree | pkg/memory-monitor/src/monitor/cgroups.c:242 | The two tests agree whenever the cache does not exceed the usage. |
| Cgroups.SaturatingThresholdMonotone | pkg/memory-monitor/src/monitor/cgroups.c:242 | In the intended test, more usage never turns the event off. |
| Cgroups.NewLimit | pkg/memory-monitor/src/monitor/cgroups.c:293-320 | As written, the adjustment is refused exactly when the current limit exceeds LONG_MAX or the signed sum overflows. Otherwise the written value is the sum, reduced modulo 2^64 when it is negative. |
| Cgroups.NewLimitChecked | pkg/memory-monitor/src/monitor/cgroups.c:298-304 | As the comment intends, a new limit exists exactly when the sum lies in [0, LONG_MAX], and it is the sum. |
| Cgroups.NegativeAdjustmentWraps | pkg/memory-monitor/src/monitor/cgroups.c:299-320 | Shrinking a 100 MiB limit by 200 MiB is accepted as written and writes 2^64 - 100 MiB. The intended check refuses it. |
| Cgroups.NewLimitCheckedAgrees | pkg/memory-monitor/src/monitor/cgroups.c:299-320 | The intended check agrees with the code for every non-negative sum. |
| Cgroups.AdjustMemoryLimit | pkg/memory-monitor/src/monitor/cgroups.c:276-332 | Succeeds exactly when the conversion, the limit read, the range checks, the open and the write succeed. The text written is then the decimal digits of the new limit. |
| Cgroups.WrittenLimitReadsBack | pkg/memory-monitor/src/monitor/cgroups.c:320-323 | The decimal text written for a limit parses back to that limit (at most 20 digits) when it is followed by a non-digit or nothing. |
| Cgroups.AdjustThenRead | pkg/memory-monitor/src/monitor/cgroups.c:276-332 | After a successful adjustment, reading the limit back returns the new limit. |
| Cgroups.Validate | pkg/memory-monitor/src/monitor/cgroups.c:95-128 | The result is 0 exactly when the cgroup directory, cgroup.event_control and memory.pressure_level all open, and 1 otherwise. The checks run in that order and stop at the first failure. |
| DeviceNetwork.IpEqual | devicenetwork/devicenetwork.go:123 | net.IP.Equal: addresses of one length are equal exactly when their bytes are; a 4-byte address equals exactly its ::ffff:-prefixed 16-byte form; other lengths never match. |
| DeviceNetwork.IpEqualIsEquivalence | devicenetwork/devicenetwork.go:123 | net.IP.Equal, which treats an IPv4 address and its IPv6-mapped form as equal, is an equivalence relation. |
| DeviceNetwork.GetDeviceNetworkConfig | devicenetwork/devicenetwork.go:34-51 | Read and decode errors are returned as they are. A configuration without FreeUplinks takes its Uplink list as FreeUplinks, and otherwise it is unchanged. |
| DeviceNetwork.FallbackMakesAllUplinksFree | devicenetwork/devicenetwork.go:43-48 | After the fallback, in an old configuration, an interface is free exactly when it is an uplink. |
| DeviceNetwork.FirstEqualAddr | devicenetwork/devicenetwork.go:122-126 | The entry found has an address equal to the one sought. None is found exactly when no entry's address is equal. |
| DeviceNetwork.LookupAddr | devicenetwork/devicenetwork.go:116-129 | A found entry has an equal address and is the first equal entry of some uplink with that interface name. |
| DeviceNetwork.LookupAddrMeaning | devicenetwork/devicenetwork.go:116-129 | The lookup finds nothing exactly when no entry under the interface name has an equal address. Otherwise it finds such an entry. |
| DeviceNetwork.FindInAddrList | devicenetwork/devicenetwork.go:122-126 | The inner search loop returns the first equal entry. |
| DeviceNetwork.LookupUplinkStatusAddr | devicenetwork/devicenetwork.go:116-129 | The search returns the first entry, in uplink then address order, with that interface name and an equal address. |
| DeviceNetwork.UplinkAddrs | devicenetwork/devicenetwork.go:68-94 | A missing link has no addresses. Otherwise the list holds as many addresses as the IPv4 and IPv6 lists together; a failed list counts as empty. |
| DeviceNetwork.InheritGeo | devicenetwork/devicenetwork.go:101-108 | The address is kept. The Geo and LastGeoTimestamp of the entry found in the old status are copied, and the entry is unchanged when nothing is found. |
| DeviceNetwork.IsFree | devicenetwork/devicenetwork.go:62-67 | Free exactly when the uplink occurs in FreeUplinks. |
| DeviceNetwork.FillAddrInfoList | devicenetwork/devicenetwork.go:82-94 | AddrInfoList is the IPv4 addresses followed by the IPv6 addresses, one fresh entry each. |
| DeviceNetwork.PreserveGeo | devicenetwork/devicenetwork.go:98-109 | Each address of the uplink inherits the geolocation of its old entry. Name, flag and length are kept. |
| DeviceNetwork.NewUplink | devicenetwork/devicenetwork.go:60-95 | The first loop's entry for one uplink: its name, the free flag, and one fresh AddrInfo per address in order. |
| DeviceNetwork.GeoOfNewUplink | devicenetwork/devicenetwork.go:96-110 | The geo loop turns the first loop's entry into the entry with inherited geolocation. |
| DeviceNetwork.MakeDeviceNetworkStatus | devicenetwork/devicenetwork.go:54-114 | There is one entry per configured uplink, in order. Each entry has the uplink's name, the free flag, and its addresses in IPv4-then-IPv6 order with geolocation carried over from the old status. The error is always nil, because the loop's `err` shadows the function's. |
| DeviceNetwork.NewUplinks | devicenetwork/devicenetwork.go:58-95 | UplinkStatus is filled by index with the first loop's entries. |
| DeviceNetwork.PreserveGeoAll | devicenetwork/devicenetwork.go:96-110 | The geo loop updates every entry in place. |
| DeviceNetwork.NewAddressHasNoGeo | devicenetwork/devicenetwork.go:102-106 | An address new under its interface name keeps the zero geolocation and timestamp. |
| DeviceNetwork.KnownAddressKeepsGeo | devicenetwork/devicenetwork.go:102-108 | An address known under a unique interface name takes the geolocation and timestamp of its first equal old entry. |
| DeviceNetwork.FirstEqualAddrAt | devicenetwork/devicenetwork.go:122-126 | The search stops at the first equal address. |
| DeviceNetwork.KnownAddressFound | devicenetwork/devicenetwork.go:116-129 | Under a unique interface name, the lookup returns the first equal entry of that uplink. |
| Qmp.CommandText | pkg/pillar/hypervisor/qmp.go:46-67 | Every command text is an "execute" JSON object. The VNC password is put between the quotes as given, without escaping. |
| Qmp.CommandTextInjective | pkg/pillar/hypervisor/qmp.go:46-67 | Every command has its own JSON text. |
| Qmp.DialsFrom | pkg/pillar/hypervisor/qmp.go:26-32 | The dial loop stops at the first successful dial or after the fourth; every dial before the last one made failed. |
| Qmp.RawCmdReply | pkg/pillar/hypervisor/qmp.go:20-44 | When all four dials fail, the result is the fourth dial's error. Once any of the four succeeds, it is Connect's error, or else Run's result. |
| Qmp.ExecRawCmd | pkg/pillar/hypervisor/qmp.go:20-44 | At most 4 dials, stopping at the first success: every earlier dial failed. After all failures the last error is returned, with one second's sleep per failure. A failed Connect returns its error; otherwise the reply is what Run returned. The attempts and the reply are DialsFrom and RawCmdReply. |
| Qmp.Exec | pkg/pillar/hypervisor/qmp.go:46-70 | A helper reports exactly the error of execRawCmd's reply (RawCmdReply), for every outcome of the dials, Connect and Run: the last dial error when all four dials fail, and otherwise Connect's error or Run's. |
| Qmp.StatusMapClassification | pkg/pillar/hypervisor/qmp.go:75-89 | "running" maps exactly to RUNNING and "shutdown" to HALTING. "inmigrate" and "watchdog" map to PAUSING. Exactly nine statuses map to PAUSED, and nothing else is mapped. |
| Qmp.GetQemuStatus | pkg/pillar/hypervisor/qmp.go:72-115 | A failed command gives UNKNOWN and its error. Without an error the state is the mapped one. A decode failure or an unknown status gives the zero state and an error that embeds the raw reply. |
| Qmp.EventCommands | pkg/pillar/hypervisor/qmp.go:141-153 | SHUTDOWN sends stop and then quit; every other event sends nothing. |
| HardwareInfo.ToUint32 | pkg/pillar/cmd/zedagent/hardwareinfo.go:130 | uint32(id) keeps a value below 2^32 and is the identity on representable values. |
| HardwareInfo.ToUint64 | pkg/pillar/cmd/zedagent/hardwareinfo.go:131-133 | uint64(x) keeps a value below 2^64 and is the identity on representable values. |
| HardwareInfo.SmartAttrOf | pkg/pillar/cmd/zedagent/hardwareinfo.go:126-139 | nil exactly when no row has the id. Otherwise the result is the report of the first row with the id, with the id as uint32. |
| HardwareInfo.GetSmartAttr | pkg/pillar/cmd/zedagent/hardwareinfo.go:126-139 | The early-return search loop computes SmartAttrOf. |
| HardwareInfo.DiskEntry | pkg/pillar/cmd/zedagent/hardwareinfo.go:65-87 | A failed disk reports only its name and errors. A successful one reports its name, serial and model, its WWN in hex (which reads back as the WWN), and exactly one SmartMetric of the six lookups. |
| HardwareInfo.ShapeDisks | pkg/pillar/cmd/zedagent/hardwareinfo.go:64-88 | One record per disk, in input order. |
| HardwareInfo.HwInfoKey | pkg/pillar/cmd/zedagent/hardwareinfo.go:46 | The key is the 36-character UUID text followed by "hwinfo". |
| HardwareInfo.HwInfoKeyInjective | pkg/pillar/cmd/zedagent/hardwareinfo.go:46 | Distinct devices queue their reports under distinct keys. |
| HardwareInfo.UuidStringInjective | pkg/pillar/cmd/zedagent/hardwareinfo.go:46 | Distinct UUIDs have distinct texts. |
| HardwareInfo.PublishOne | pkg/pillar/cmd/zedagent/hardwareinfo.go:44-110 | If reading the disks fails, nothing is queued. Otherwise one report is queued under the key for the URL, with one record per disk. |
| HardwareInfo.Targets | pkg/pillar/cmd/zedagent/hardwareinfo.go:116-123 | The report goes to the controller exactly when its bit is set. It goes to the LOC exactly when that bit is set and a LOC is configured, and then to the configured URL. A report to both lists the controller first. |
| HardwareInfo.PublishHardwareInfo | pkg/pillar/cmd/zedagent/hardwareinfo.go:112-124 | The SMART data is read once per target. Each report goes out in target order, under the device's key and to that target's URL. It carries one DiskEntry per disk of its own read, in order. The first failed read ends the process (log.Fatal): the reports queued before it stay queued, and no later target is reached. |
| PubSub.GoroutinePrefixText | pkg/pillar/utils/pubsub.go:35-37 | The prefix bytes spell "goroutine ". |
| PubSub.Atoi | pkg/pillar/utils/pubsub.go:56 | strconv.Atoi with its error dropped. A digit run after the optional sign whose value exceeds 2^64 - 1 gives the limit of the sign's side: ParseUint stops with a range error there, before any later non-digit. Otherwise anything but an optional sign followed by digits gives 0. A digit run gives its value clamped to the int64 range, negated after a '-'. The result is always an int64. |
| PubSub.OverflowBeforeNonDigit | pkg/pillar/utils/pubsub.go:56 | Digits worth more than 2^64 - 1, followed by nothing or by a non-digit, give the int64 maximum, and the int64 minimum after a '-'. |
| PubSub.StackBuffer | pkg/pillar/utils/pubsub.go:40-42 | The buffer holds at most the first 32 bytes of the trace. |
| PubSub.ParseGoroutineHeader | pkg/pillar/utils/pubsub.go:45-57 | 0 without the prefix, or without a space after it. Otherwise Atoi of the bytes between the first prefix and the first space after it. |
| PubSub.GetGoRoutineID | pkg/pillar/utils/pubsub.go:39-58 | The id is parsed from the copied part of the trace. |
| PubSub.ParseHeaderAtStart | pkg/pillar/utils/pubsub.go:45-57 | A buffer starting "goroutine <digits> " yields the value of the digits. |
| PubSub.GoroutineIdRoundTrip | pkg/pillar/utils/pubsub.go:39-58 | The header the runtime writes for goroutine n reads back as n. |
| PubSub.LookupDatastoreConfig | pkg/pillar/utils/pubsub.go:17-33 | The nil UUID is an error. A failed Get is returned wrapped with the UUID text. Otherwise the stored config is returned. |
| PubSub.NilUuidIsNotLookedUp | pkg/pillar/utils/pubsub.go:19-23 | The nil UUID gives the same error whatever the subscription holds, so it is never queried. |

## Left out

- LpsClient.MakeLPSBaseURL: url.Parse is modelled only for the checks that can fire on "http://" + addr without a path: control characters, the splits at '#', '?' and '/', user information, brackets and the port. Percent-escapes, invalid host characters and IPv6 zones are not checked, so a few addresses Go refuses are accepted here.
- LpsClient.UrlFailure: the URL in url.Error's text and the port in the invalid-port message are both quoted with `%q`. The model quotes them without escaping.
- LpsClient.FetchProfile: getLPSConfig's error text is only logged by getLPS, so the model drops it.
- updateLPSMap and updateHasLPS: their code is not part of this model. updateLPSMap's outcome is an input, and the server map is given as it stands after the call.
- Profile.ProfileContext.ProfileStateMachine: lpsMap.upToDate and lpsMap.servers are held unchanged by assumption across the fetch. updateLPSMap, which may rewrite them, is not modelled.
- Lps.LpsContext.ProfileStateMachine: lpsMap.upToDate and lpsMap.servers are held unchanged by assumption across the fetch, as in the first variant.
- parseLPS, readSavedLPS and processSavedProfile are not modelled. They decode protobuf from a checkpoint file.
- localProfileTimerTask, lpsTimerTask and hardwareInfoTask are not modelled. They are timers and watchdogs.
- Publishing and notification effects are recorded, not performed:
  - publishZedAgentStatus is recorded as the current profile at each publish;
  - triggerRadioPOST, the local app/device info tickers and POST triggers are recorded in order as notices;
  - the checkpoint's save, touch and clean are recorded as actions;
  - each channel's capacity is a parameter.
- Log calls (log, logrus, syslog) are left out everywhere.
- Radvd.Equal: a non-Radvd argument makes the Go type assertion panic, so the model requires a Radvd.
- Radvd.RadvdConfigurator.Create and Radvd.RadvdConfigurator.Delete:
  - ContinueInBackground, startProcess and stopProcess are not part of this model. The process requests are returned, and the stop outcome is an input.
  - File-removal errors are ignored, as in the source.
  - A failed WriteString leaves the config file empty in the model; the real file may hold part of the text.
- Radvd.ConfigPath and Radvd.PidPath: filepath.Join is modelled as concatenation with "/". That holds for instance names without '/', which interface names are; for other names, Clean's removal of "." and ".." elements is not modelled, so ConfigPathInjective and PidPathInjective are stated only for names without '/'.
- Itr.ThreadTable.ManageItrThreads:
  - the channel buffer of one message and blocking sends are not modelled;
  - itr.SetupPacketCapture and itr.StartItrThread are left out;
  - fib's crypto port store is the `cryptoPort` field.
- DumpThreadTable only logs, and is left out.
- ManageETRThread and ManageEtrDNS only call into the etr package, and are left out.
- Cgroups.GetMemoryLimit:
  - errno is taken to be clear before strtoul, so ERANGE is set only by this call;
  - the read keeps room for the terminator (see Findings).
- Cgroups.GetMemoryUsage and Cgroups.GetTotalCache: strtoudec is a parameter.
- Cgroups.GetTotalCache:
  - the file is given as the lines fgets returns;
  - the first total_cache line must be longer than the 11-byte key. Only a last line that ends in the key without a newline is shorter; C then parses whatever the buffer held past the terminator fgets wrote, and the model does not cover that case;
  - snprintf's truncation of a path longer than 255 bytes is not modelled;
  - a line longer than 255 bytes being split by fgets is not modelled.
- Cgroups.AdjustMemoryLimit:
  - convert_mb_to_bytes_signed is a parameter;
  - snprintf's truncation cannot occur for 20 digits and is not modelled;
  - a short write(2) also counts as success in the source; the model records all the digits as written.
- Cgroups.Validate: snprintf's truncation of a path longer than 255 bytes is not modelled.
- cgroups_events_monitor_thread and run_handler block on event descriptors and are not modelled; only the threshold test is.
- cgroup_move_process_to_root_memory only writes a PID to a file and is not modelled.
- DeviceNetwork.MakeDeviceNetworkStatus stops at the status before the immediate geolocation check.
  - UpdateDeviceNetworkGeo calls ipinfo.io and reads the clock, and is not modelled.
  - netlink.LinkByName and AddrList are an input function.
- GetDeviceNetworkConfig2 is not modelled.
- Qmp.ExecRawCmd: the socket monitor is an input. Sleeps are counted, not timed, and Disconnect is left out.
- qmpEventHandler's socket, os.Stat check and event channel are left out; only the reaction to one event is modelled.
- LpsClient.AnswerWithFetches and LpsClient.AnswerWithResult describe a scenario: every server answers with the same profile. They do not cover other servers' answers.
- HardwareInfo.PublishOne:
  - proto.Marshal, the timestamp, HandleDeferred and the HTTP flags are left out;
  - log.Fatal after a failed disk read is modelled as nothing being queued;
  - URLPathString is a parameter, and the SMART reader's result is an input.
- PubSub.GetGoRoutineID: runtime.Stack is modelled by the trace it would copy.
- PubSub.LookupDatastoreConfig: the subscription is a function from key to result, and the stored config's type is generic. The type assertion cannot fail.

## Findings

| source | as written | input that shows it | evidently intended | confidence | as-written member | corrected member |
|---|---|---|---|---|---|---|
| pkg/memory-monitor/src/monitor/cgroups.c:242 | `usage - cache >= event.threshold` on unsigned long wraps when the cache exceeds the usage | usage 100, cache 200, threshold 1: the difference wraps to 2^64 - 100 and the handler runs | usage net of cache, floored at zero, compared with the threshold | not executed | Cgroups.ThresholdFiresWhenCacheExceedsUsage | Cgroups.ThresholdReachedSaturating |
| pkg/memory-monitor/src/monitor/cgroups.c:299-320 | only signed overflow is refused, although the comment says the new limit must not be less than 0 | current limit 100 MiB, adjustment -200 MiB: `%lu` of -100 MiB writes 18446744073604694016 | a negative new limit is refused | not executed | Cgroups.NegativeAdjustmentWraps | Cgroups.NewLimitChecked |
| pkg/memory-monitor/src/monitor/cgroups.c:146-159 | read(2) asks for sizeof(str_limit) bytes, then `str_limit[nread] = '\0'` | a limit file of 256 bytes or more: nread is 256 and the terminator is written past the 256-byte array | read at most sizeof(str_limit) - 1 bytes, as cgroup_get_memory_usage does | not executed | Cgroups.TerminatorOverrunsBuffer | Cgroups.GetMemoryLimit |
| pkg/pillar/cmd/zedagent/handlelps.go:208-234 | ctx.lps holds both the server address and the received profile, so an address with no profile fetched becomes the current profile, and a fetched profile replaces the address | server "lps.local", global profile "g": the current profile is "lps.local"; after receiving profile "p", the next fetch goes to http://p:8888 | the address and the received profile in separate fields, as handleProfile.go keeps them | not executed | Lps.ServerAddressBecomesCurrentProfile | Profile.ServerAddressIsNotAProfile |
