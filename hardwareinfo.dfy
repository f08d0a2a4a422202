/**
 * The hardware-information report of zedagent: the SMART attributes of each
 * disk are shaped into StorageDiskInfo records, the report is queued for
 * deferred sending under the key "<device UUID>hwinfo", and it goes to the
 * controller, to the local operator console (LOC), or to both, as the
 * destination bits say.
 *
 * Reading SMART data, protobuf marshalling and the HTTP layer are outside
 * the model; their results are inputs and the queued report is an output.
 */
module HardwareInfo {
  import opened Wrappers
  import opened Text

  const TwoTo32: int := 0x1_0000_0000
  const TwoTo64: int := 0x1_0000_0000_0000_0000

  /** Go's uint32(x) and uint64(x) of an int: two's-complement truncation. */
  function ToUint32(x: int): (u: nat)
    ensures u < TwoTo32 && (0 <= x < TwoTo32 ==> u == x)
  {
    x % TwoTo32
  }

  function ToUint64(x: int): (u: nat)
    ensures u < TwoTo64 && (0 <= x < TwoTo64 ==> u == x)
  {
    x % TwoTo64
  }

  /**
   * The SMART attribute numbers of the six reported metrics, as ATA
   * numbers them; the types package that declares them is not part of this
   * model.
   */
  const SmartAttrIDRealLocatedSectorCt: int := 5
  const SmartAttrIDPowerOnHours: int := 9
  const SmartAttrIDPowerCycleCount: int := 12
  const SmartAttrIDTemperatureCelsius: int := 194
  const SmartAttrIDRealLocatedEventCount: int := 196
  const SmartAttrIDCurrentPendingSectorCt: int := 197

  /** types.DAttrTable: one attribute row as the SMART reader reports it. */
  datatype DAttrTable = DAttrTable(id: int, value: int, worst: int, rawValue: int)

  /** info.SmartAttr. */
  datatype SmartAttr = SmartAttr(id: nat, rawValue: nat, worst: nat, value: nat)

  /** The report of one table row under a requested id. */
  function ReportAttr(id: int, a: DAttrTable): SmartAttr
  {
    SmartAttr(ToUint32(id), ToUint64(a.rawValue), ToUint64(a.worst), ToUint64(a.value))
  }

  /** The attribute reported for an id: the first row with that id, or nil (None). */
  function SmartAttrOf(id: int, diskData: seq<DAttrTable>): (r: Option<SmartAttr>)
    ensures r.None? <==> forall i :: 0 <= i < |diskData| ==> diskData[i].id != id
    ensures r.Some? ==> exists i :: 0 <= i < |diskData| && diskData[i].id == id
                                    && (forall j :: 0 <= j < i ==> diskData[j].id != id)
                                    && r.value == ReportAttr(id, diskData[i])
    ensures r.Some? ==> r.value.id == ToUint32(id)
  {
    if diskData == [] then None
    else if diskData[0].id == id then Some(ReportAttr(id, diskData[0]))
    else
      var r := SmartAttrOf(id, diskData[1..]);
      assert forall i :: 1 <= i < |diskData| ==> diskData[i] == diskData[1..][i - 1];
      r
  }

  /** getSmartAttr: a search loop that returns at the first row with the id. */
  method GetSmartAttr(id: int, diskData: seq<DAttrTable>) returns (attrResult: Option<SmartAttr>)
    ensures attrResult == SmartAttrOf(id, diskData)
  {
    for k := 0 to |diskData|
      invariant SmartAttrOf(id, diskData) == SmartAttrOf(id, diskData[k..])
    {
      assert diskData[k..][0] == diskData[k];
      if diskData[k].id == id {
        return Some(ReportAttr(id, diskData[k]));
      }
      assert diskData[k..][1..] == diskData[k + 1..];
    }
    assert diskData[|diskData|..] == [];
    return None;
  }

  // --------------------------------------------------------------- disks

  /** types.DiskSmartInfo; `errorText` is what disk.Errors.Error() returns. */
  datatype DiskSmartInfo = DiskSmartInfo(diskName: string, serialNumber: string, modelNumber: string,
                                         wwn: nat, collectingSuccess: bool, errorText: string,
                                         smartAttrs: seq<DAttrTable>)

  /** info.SmartMetric: the six reported attributes, each possibly nil. */
  datatype SmartMetric = SmartMetric(reallocatedSectorCt: Option<SmartAttr>, powerOnHours: Option<SmartAttr>,
                                     powerCycleCount: Option<SmartAttr>, reallocatedEventCount: Option<SmartAttr>,
                                     currentPendingSector: Option<SmartAttr>, temperature: Option<SmartAttr>)

  /** info.StorageDiskInfo; an unset string field is "". */
  datatype StorageDiskInfo = StorageDiskInfo(diskName: string, serialNumber: string, model: string, wwn: string,
                                             collectorErrors: string, smartData: seq<SmartMetric>)

  /** The six lookups of one disk's attribute table. */
  function MetricOf(attrs: seq<DAttrTable>): SmartMetric
  {
    SmartMetric(SmartAttrOf(SmartAttrIDRealLocatedSectorCt, attrs), SmartAttrOf(SmartAttrIDPowerOnHours, attrs),
                SmartAttrOf(SmartAttrIDPowerCycleCount, attrs), SmartAttrOf(SmartAttrIDRealLocatedEventCount, attrs),
                SmartAttrOf(SmartAttrIDCurrentPendingSectorCt, attrs), SmartAttrOf(SmartAttrIDTemperatureCelsius, attrs))
  }

  /**
   * The record reported for one disk: a disk whose collection failed reports
   * only its name and errors; any other disk its identity, its WWN in hex and
   * exactly one SmartMetric.
   */
  function DiskEntry(disk: DiskSmartInfo): (e: StorageDiskInfo)
    ensures !disk.collectingSuccess ==> e == StorageDiskInfo(disk.diskName, "", "", "", disk.errorText, [])
    ensures disk.collectingSuccess ==>
              e.diskName == disk.diskName && e.serialNumber == disk.serialNumber && e.model == disk.modelNumber
              && e.collectorErrors == "" && e.wwn == HexString(disk.wwn) && HexValue(e.wwn) == disk.wwn
              && e.smartData == [MetricOf(disk.smartAttrs)]
  {
    if !disk.collectingSuccess then StorageDiskInfo(disk.diskName, "", "", "", disk.errorText, [])
    else
      HexRoundTrip(disk.wwn);
      StorageDiskInfo(disk.diskName, disk.serialNumber, disk.modelNumber, HexString(disk.wwn), "",
                      [MetricOf(disk.smartAttrs)])
  }

  /** The loop of publishHardwareInfo over the disks: one record per disk, in order. */
  method ShapeDisks(disks: seq<DiskSmartInfo>) returns (out: seq<StorageDiskInfo>)
    ensures |out| == |disks|
    ensures forall k :: 0 <= k < |disks| ==> out[k] == DiskEntry(disks[k])
  {
    out := [];
    for k := 0 to |disks|
      invariant |out| == k
      invariant forall j :: 0 <= j < k ==> out[j] == DiskEntry(disks[j])
    {
      var disk := disks[k];
      if !disk.collectingSuccess {
        out := out + [StorageDiskInfo(disk.diskName, "", "", "", disk.errorText, [])];
        continue;
      }
      var reallocated := GetSmartAttr(SmartAttrIDRealLocatedSectorCt, disk.smartAttrs);
      var powerOn := GetSmartAttr(SmartAttrIDPowerOnHours, disk.smartAttrs);
      var cycles := GetSmartAttr(SmartAttrIDPowerCycleCount, disk.smartAttrs);
      var events := GetSmartAttr(SmartAttrIDRealLocatedEventCount, disk.smartAttrs);
      var pending := GetSmartAttr(SmartAttrIDCurrentPendingSectorCt, disk.smartAttrs);
      var temperature := GetSmartAttr(SmartAttrIDTemperatureCelsius, disk.smartAttrs);
      var attrSmart := SmartMetric(reallocated, powerOn, cycles, events, pending, temperature);
      out := out + [StorageDiskInfo(disk.diskName, disk.serialNumber, disk.modelNumber, HexString(disk.wwn), "",
                                    [attrSmart])];
    }
  }

  // ----------------------------------------------------------- publishing

  /** The deferred-send key: the device UUID's text followed by "hwinfo". */
  function HwInfoKey(devUUID: Uuid): (key: string)
    ensures |key| == 42 && key[36..] == "hwinfo"
  {
    UuidString(devUUID) + "hwinfo"
  }

  /** A report queued with zedcloud.SetDeferred: key, URL and the disk records. */
  datatype DeferredSend = DeferredSend(key: string, url: string, disks: seq<StorageDiskInfo>)

  /**
   * publishHardwareInfo for one URL. `disks` is what ReadSMARTinfoForDisks
   * returned; on its error the agent stops (log.Fatal) and nothing is queued.
   */
  method PublishOne(devUUID: Uuid, statusUrl: string, disks: Result<seq<DiskSmartInfo>>)
    returns (sent: Option<DeferredSend>)
    ensures disks.Err? ==> sent == None
    ensures disks.Ok? ==> sent.Some? && sent.value.key == HwInfoKey(devUUID) && sent.value.url == statusUrl
                          && |sent.value.disks| == |disks.value|
                          && forall k :: 0 <= k < |disks.value| ==> sent.value.disks[k] == DiskEntry(disks.value[k])
  {
    if disks.Err? {
      return None;
    }
    var hwInfo := ShapeDisks(disks.value);
    sent := Some(DeferredSend(HwInfoKey(devUUID), statusUrl, hwInfo));
  }

  /** The bits of infoDest (1 << iota, in this order); the declaration is not part of this model. */
  const ControllerDest: bv8 := 1
  const LOCDest: bv8 := 2

  /** The URL a report goes to, as a requested place. */
  datatype Target = Controller | Loc(locUrl: string)

  /** PublishHardwareInfo's dispatch: controller first if its bit is set, LOC if its bit is set and a LOC is configured. */
  function Targets(dest: bv8, locUrl: Option<string>): (ts: seq<Target>)
    ensures Controller in ts <==> dest & ControllerDest != 0
    ensures (exists u :: Loc(u) in ts) <==> dest & LOCDest != 0 && locUrl.Some?
    ensures forall t :: t in ts && t.Loc? ==> locUrl == Some(t.locUrl)
    ensures |ts| <= 2 && (|ts| == 2 ==> ts[0] == Controller)
  {
    (if dest & ControllerDest != 0 then [Controller] else [])
    + (if dest & LOCDest != 0 && locUrl.Some? then [Loc(locUrl.value)] else [])
  }

  /**
   * PublishHardwareInfo: one report per target, each publishHardwareInfo call
   * reading the disks itself; disks(k) is what the k-th read returns. A
   * failed read ends the process (log.Fatal), so the reports queued before it
   * stay queued and no later target is served. urlPath(server) stands for
   * zedcloud.URLPathString(server, V2API, devUUID, "info").
   */
  method PublishHardwareInfo(dest: bv8, locUrl: Option<string>, serverNameAndPort: string,
                             urlPath: string -> string, devUUID: Uuid, disks: nat -> Result<seq<DiskSmartInfo>>)
    returns (sent: seq<DeferredSend>, exited: bool)
    ensures |sent| <= |Targets(dest, locUrl)|
    ensures exited <==> |sent| < |Targets(dest, locUrl)|
    ensures exited ==> disks(|sent|).Err?
    ensures forall k :: 0 <= k < |sent| ==>
              disks(k).Ok? && sent[k].key == HwInfoKey(devUUID)
              && sent[k].url == match Targets(dest, locUrl)[k]
                                case Controller => urlPath(serverNameAndPort)
                                case Loc(u) => urlPath(u)
    ensures forall k :: 0 <= k < |sent| ==>
              |sent[k].disks| == |disks(k).value|
              && forall j :: 0 <= j < |disks(k).value| ==> sent[k].disks[j] == DiskEntry(disks(k).value[j])
  {
    sent, exited := [], false;
    if dest & ControllerDest != 0 {
      var s := PublishOne(devUUID, urlPath(serverNameAndPort), disks(0));
      if s.None? {
        return sent, true;
      }
      sent := sent + [s.value];
    }
    if dest & LOCDest != 0 && locUrl.Some? {
      var s := PublishOne(devUUID, urlPath(locUrl.value), disks(|sent|));
      if s.None? {
        return sent, true;
      }
      sent := sent + [s.value];
    }
  }

  // ------------------------------------------------------------------ keys

  lemma HexByteInjective(a: Byte, b: Byte)
    requires HexByte(a) == HexByte(b)
    ensures a == b
  {
    HexCharInverse(a / 16);
    HexCharInverse(b / 16);
    HexCharInverse(a % 16);
    HexCharInverse(b % 16);
  }

  lemma {:induction false} HexBytesInjective(a: seq<Byte>, b: seq<Byte>)
    requires |a| == |b| && HexBytes(a) == HexBytes(b)
    ensures a == b
  {
    if a != [] {
      var ha, hb := HexBytes(a), HexBytes(b);
      assert ha[..2] == HexByte(a[0]) && hb[..2] == HexByte(b[0]);
      assert ha[2..] == HexBytes(a[1..]) && hb[2..] == HexBytes(b[1..]);
      HexByteInjective(a[0], b[0]);
      HexBytesInjective(a[1..], b[1..]);
    }
  }

  /** Where each group of a UUID's bytes stands in its string. */
  lemma UuidFields(u: Uuid)
    ensures var s := UuidString(u);
            s[0..8] == HexBytes(u[..4]) && s[9..13] == HexBytes(u[4..6]) && s[14..18] == HexBytes(u[6..8])
            && s[19..23] == HexBytes(u[8..10]) && s[24..36] == HexBytes(u[10..])
  {
  }

  lemma UuidStringInjective(u: Uuid, v: Uuid)
    requires UuidString(u) == UuidString(v)
    ensures u == v
  {
    UuidFields(u);
    UuidFields(v);
    HexBytesInjective(u[..4], v[..4]);
    HexBytesInjective(u[4..6], v[4..6]);
    HexBytesInjective(u[6..8], v[6..8]);
    HexBytesInjective(u[8..10], v[8..10]);
    HexBytesInjective(u[10..], v[10..]);
    assert u == u[..4] + u[4..6] + u[6..8] + u[8..10] + u[10..];
    assert v == v[..4] + v[4..6] + v[6..8] + v[8..10] + v[10..];
  }

  /** Distinct devices queue their reports under distinct keys. */
  lemma HwInfoKeyInjective(u: Uuid, v: Uuid)
    requires HwInfoKey(u) == HwInfoKey(v)
    ensures u == v
  {
    assert UuidString(u) == HwInfoKey(u)[..36] && UuidString(v) == HwInfoKey(v)[..36];
    UuidStringInjective(u, v);
  }
}
