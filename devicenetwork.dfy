/**
 * The device network helpers: reading the uplink configuration (with the
 * FreeUplinks fallback for old files) and building the per-uplink status
 * (interface name, free flag, IPv4 then IPv6 addresses) while keeping the
 * geolocation already known for an unchanged (interface, address) pair.
 *
 * The file read, the JSON decoder and netlink are parameters.
 */
module DeviceNetwork {
  import opened Wrappers
  import opened Text

  /** net.IP: 4 bytes, 16 bytes, or anything else a caller supplies. */
  type IP = seq<Byte>

  /** The prefix of an IPv4 address written in IPv6 form (::ffff:a.b.c.d). */
  const V4InV6Prefix: seq<Byte> := [0, 0, 0, 0, 0, 0, 0, 0, 0, 0, 255, 255]

  /** net.IP.Equal: equal bytes, or the same IPv4 address in its 4- and 16-byte forms. */
  predicate IpEqual(ip: IP, x: IP): (b: bool)
    ensures |ip| == |x| ==> (b <==> ip == x)
    ensures |ip| == 4 && |x| == 16 ==> (b <==> x == V4InV6Prefix + ip)
    ensures |ip| == 16 && |x| == 4 ==> (b <==> ip == V4InV6Prefix + x)
    ensures b && |ip| != |x| ==> |ip| + |x| == 20
  {
    if |ip| == |x| then ip == x
    else if |ip| == 4 && |x| == 16 then x[..12] == V4InV6Prefix && ip == x[12..]
    else if |ip| == 16 && |x| == 4 then ip[..12] == V4InV6Prefix && ip[12..] == x
    else false
  }

  /** IpEqual is an equivalence relation, so "the same address" is well defined. */
  lemma IpEqualIsEquivalence(a: IP, b: IP, c: IP)
    ensures IpEqual(a, a)
    ensures IpEqual(a, b) <==> IpEqual(b, a)
    ensures IpEqual(a, b) && IpEqual(b, c) ==> IpEqual(a, c)
  {
    if IpEqual(a, b) && IpEqual(b, c) && |a| != |b| && |b| != |c| {
      if |a| == 16 {
        assert a == a[..12] + a[12..] && c == c[..12] + c[12..];
      }
    }
  }

  /** The geolocation record from ipinfo.io; all fields empty is the zero value. */
  datatype IpInfo = IpInfo(ip: string, hostname: string, city: string, region: string,
                           country: string, loc: string, org: string, postal: string)

  const ZeroGeo: IpInfo := IpInfo("", "", "", "", "", "", "", "")

  /** types.AddrInfo; a timestamp is a count of nanoseconds, 0 being the zero time. */
  datatype AddrInfo = AddrInfo(addr: IP, geo: IpInfo, lastGeoTimestamp: nat)

  /** types.NetworkUplink. */
  datatype NetworkUplink = NetworkUplink(ifName: string, free: bool, addrInfoList: seq<AddrInfo>)

  datatype DeviceNetworkStatus = DeviceNetworkStatus(uplinkStatus: seq<NetworkUplink>)

  /** types.DeviceNetworkConfig. */
  datatype DeviceNetworkConfig = DeviceNetworkConfig(uplink: seq<string>, freeUplinks: seq<string>)

  // ------------------------------------------------- GetDeviceNetworkConfig

  /**
   * GetDeviceNetworkConfig: `file` is what ioutil.ReadFile returned and
   * `unmarshal` the JSON decoder. An old configuration without FreeUplinks
   * has all its uplinks free.
   */
  function GetDeviceNetworkConfig(file: Result<seq<Byte>>, unmarshal: seq<Byte> -> Result<DeviceNetworkConfig>)
    : (r: Result<DeviceNetworkConfig>)
    ensures file.Err? ==> r == Err(file.error)
    ensures file.Ok? && unmarshal(file.value).Err? ==> r == Err(unmarshal(file.value).error)
    ensures file.Ok? && unmarshal(file.value).Ok? ==>
              var decoded := unmarshal(file.value);
              r.Ok? && r.value.uplink == decoded.value.uplink
              && r.value.freeUplinks == if decoded.value.freeUplinks == [] then decoded.value.uplink
                                        else decoded.value.freeUplinks
  {
    match file
    case Err(e) => Err(e)
    case Ok(cb) =>
      match unmarshal(cb)
      case Err(e) => Err(e)
      case Ok(globalConfig) =>
        if |globalConfig.freeUplinks| == 0 then Ok(globalConfig.(freeUplinks := globalConfig.uplink))
        else Ok(globalConfig)
  }

  /** After the fallback, every uplink of a configuration that listed no free uplink is free. */
  lemma FallbackMakesAllUplinksFree(file: Result<seq<Byte>>, unmarshal: seq<Byte> -> Result<DeviceNetworkConfig>, u: string)
    requires file.Ok? && unmarshal(file.value).Ok? && unmarshal(file.value).value.freeUplinks == []
    ensures var r := GetDeviceNetworkConfig(file, unmarshal);
            r.Ok? && (u in r.value.uplink <==> u in r.value.freeUplinks)
  {
  }

  // ------------------------------------------------- lookupUplinkStatusAddr

  /** The first address of the list equal to addr. */
  function FirstEqualAddr(list: seq<AddrInfo>, addr: IP): (r: Option<AddrInfo>)
    ensures r.Some? ==> r.value in list && IpEqual(r.value.addr, addr)
    ensures r.None? <==> forall i :: 0 <= i < |list| ==> !IpEqual(list[i].addr, addr)
  {
    if list == [] then None
    else if IpEqual(list[0].addr, addr) then Some(list[0])
    else FirstEqualAddr(list[1..], addr)
  }

  /** The first entry, uplinks in order and addresses in order, with this interface name and an equal address. */
  function LookupAddr(ups: seq<NetworkUplink>, ifname: string, addr: IP): (r: Option<AddrInfo>)
    ensures r.Some? ==> IpEqual(r.value.addr, addr)
    ensures r.Some? ==> exists u :: 0 <= u < |ups| && ups[u].ifName == ifname && FirstEqualAddr(ups[u].addrInfoList, addr) == r
  {
    if ups == [] then None
    else if ups[0].ifName == ifname && FirstEqualAddr(ups[0].addrInfoList, addr).Some? then
      FirstEqualAddr(ups[0].addrInfoList, addr)
    else
      var r := LookupAddr(ups[1..], ifname, addr);
      assert forall u :: 1 <= u < |ups| ==> ups[u] == ups[1..][u - 1];
      r
  }

  /** LookupAddr finds nothing exactly when no entry under the name is equal, and otherwise an equal entry under it. */
  lemma {:induction false} LookupAddrMeaning(ups: seq<NetworkUplink>, ifname: string, addr: IP)
    ensures var r := LookupAddr(ups, ifname, addr);
            (r.None? <==> forall u, i :: (0 <= u < |ups| && ups[u].ifName == ifname && 0 <= i < |ups[u].addrInfoList|)
                                         ==> !IpEqual(ups[u].addrInfoList[i].addr, addr))
            && (r.Some? ==> IpEqual(r.value.addr, addr)
                            && exists u :: 0 <= u < |ups| && ups[u].ifName == ifname && r.value in ups[u].addrInfoList)
  {
    if ups != [] && !(ups[0].ifName == ifname && FirstEqualAddr(ups[0].addrInfoList, addr).Some?) {
      LookupAddrMeaning(ups[1..], ifname, addr);
      assert forall u :: 1 <= u < |ups| ==> ups[u] == ups[1..][u - 1];
      var r := LookupAddr(ups, ifname, addr);
      if r.Some? {
        var u' :| 0 <= u' < |ups[1..]| && ups[1..][u'].ifName == ifname && r.value in ups[1..][u'].addrInfoList;
        assert ups[u' + 1] == ups[1..][u'];
      }
    }
  }

  /** The inner loop of lookupUplinkStatusAddr. */
  method FindInAddrList(list: seq<AddrInfo>, addr: IP) returns (found: Option<AddrInfo>)
    ensures found == FirstEqualAddr(list, addr)
  {
    var i := 0;
    while i < |list|
      invariant 0 <= i <= |list|
      invariant FirstEqualAddr(list, addr) == FirstEqualAddr(list[i..], addr)
    {
      assert list[i..][0] == list[i];
      if IpEqual(list[i].addr, addr) {
        return Some(list[i]);
      }
      assert list[i..][1..] == list[i + 1..];
      i := i + 1;
    }
    return None;
  }

  /** lookupUplinkStatusAddr: a search over the old status, stopping at the first match. */
  method LookupUplinkStatusAddr(status: DeviceNetworkStatus, ifname: string, addr: IP) returns (ai: Option<AddrInfo>)
    ensures ai == LookupAddr(status.uplinkStatus, ifname, addr)
  {
    var ups := status.uplinkStatus;
    var k := 0;
    while k < |ups|
      invariant 0 <= k <= |ups|
      invariant LookupAddr(ups, ifname, addr) == LookupAddr(ups[k..], ifname, addr)
    {
      assert ups[k..][0] == ups[k];
      assert ups[k..][1..] == ups[k + 1..];
      if ups[k].ifName == ifname {
        var found := FindInAddrList(ups[k].addrInfoList, addr);
        if found.Some? {
          return found;
        }
      }
      k := k + 1;
    }
    return None;
  }

  // ------------------------------------------------ MakeDeviceNetworkStatus

  /** netlink.LinkByName and the two AddrList calls; None is an AddrList error. */
  datatype LinkLookup = NoLink | Link(v4: Option<seq<IP>>, v6: Option<seq<IP>>)

  function OrEmpty(addrs: Option<seq<IP>>): seq<IP>
  {
    if addrs.Some? then addrs.value else []
  }

  /** The addresses reported for an uplink: IPv4 first, then IPv6; none when the link is missing. */
  function UplinkAddrs(l: LinkLookup): (addrs: seq<IP>)
    ensures l.NoLink? ==> addrs == []
    ensures l.Link? ==> |addrs| == |OrEmpty(l.v4)| + |OrEmpty(l.v6)|
                        && addrs[..|OrEmpty(l.v4)|] == OrEmpty(l.v4) && addrs[|OrEmpty(l.v4)|..] == OrEmpty(l.v6)
  {
    match l
    case NoLink => []
    case Link(v4, v6) => OrEmpty(v4) + OrEmpty(v6)
  }

  /**
   * The body of the geo loop for one address: it takes the Geo and
   * LastGeoTimestamp of the first equal address under the same interface
   * name in the old status, and is left alone when there is none.
   */
  function InheritGeo(oldStatus: DeviceNetworkStatus, ifname: string, ai: AddrInfo): (r: AddrInfo)
    ensures r.addr == ai.addr
    ensures LookupAddr(oldStatus.uplinkStatus, ifname, ai.addr).None? ==> r == ai
    ensures LookupAddr(oldStatus.uplinkStatus, ifname, ai.addr).Some? ==>
              var prev := LookupAddr(oldStatus.uplinkStatus, ifname, ai.addr).value;
              r.geo == prev.geo && r.lastGeoTimestamp == prev.lastGeoTimestamp
  {
    WithGeoOf(ai, LookupAddr(oldStatus.uplinkStatus, ifname, ai.addr))
  }

  /** ai with the Geo and LastGeoTimestamp of the entry found, if one was. */
  function WithGeoOf(ai: AddrInfo, found: Option<AddrInfo>): AddrInfo
  {
    match found
    case None => ai
    case Some(o) => ai.(geo := o.geo, lastGeoTimestamp := o.lastGeoTimestamp)
  }

  /** A fresh AddrInfo: only the address is set. */
  function NewAddrInfo(addr: IP): AddrInfo
  {
    AddrInfo(addr, ZeroGeo, 0)
  }

  /** The entry the first loop builds for uplink u: name, free flag, one fresh AddrInfo per address. */
  ghost predicate IsNewUplink(s: NetworkUplink, u: string, freeUplinks: seq<string>, link: LinkLookup)
  {
    s.ifName == u && (s.free <==> u in freeUplinks)
    && |s.addrInfoList| == |UplinkAddrs(link)|
    && forall i :: 0 <= i < |s.addrInfoList| ==> s.addrInfoList[i] == NewAddrInfo(UplinkAddrs(link)[i])
  }

  /** The same entry after the geo loop. */
  ghost predicate IsUplinkWithGeo(s: NetworkUplink, u: string, freeUplinks: seq<string>, link: LinkLookup,
                                  oldStatus: DeviceNetworkStatus)
  {
    s.ifName == u && (s.free <==> u in freeUplinks)
    && |s.addrInfoList| == |UplinkAddrs(link)|
    && forall i :: 0 <= i < |s.addrInfoList| ==>
         s.addrInfoList[i] == InheritGeo(oldStatus, u, NewAddrInfo(UplinkAddrs(link)[i]))
  }

  /** The free-uplink loop: a search of FreeUplinks for the uplink. */
  method IsFree(u: string, freeUplinks: seq<string>) returns (free: bool)
    ensures free <==> u in freeUplinks
  {
    free := false;
    for k := 0 to |freeUplinks|
      invariant u !in freeUplinks[..k]
    {
      if freeUplinks[k] == u {
        free := true;
        break;
      }
    }
  }

  /**
   * AddrInfoList as the two index loops fill it: IPv4 addresses at 0..,
   * IPv6 addresses behind them, every other field zero.
   */
  method FillAddrInfoList(addrs4: seq<IP>, addrs6: seq<IP>) returns (list: seq<AddrInfo>)
    ensures |list| == |addrs4| + |addrs6|
    ensures forall i :: 0 <= i < |list| ==> list[i] == NewAddrInfo((addrs4 + addrs6)[i])
  {
    var a := new AddrInfo[|addrs4| + |addrs6|](_ => AddrInfo([], ZeroGeo, 0));
    for i := 0 to |addrs4|
      invariant forall j :: 0 <= j < i ==> a[j] == AddrInfo(addrs4[j], ZeroGeo, 0)
      invariant forall j :: i <= j < a.Length ==> a[j] == AddrInfo([], ZeroGeo, 0)
    {
      a[i] := a[i].(addr := addrs4[i]);
    }
    for i := 0 to |addrs6|
      invariant forall j :: 0 <= j < |addrs4| ==> a[j] == AddrInfo(addrs4[j], ZeroGeo, 0)
      invariant forall j :: 0 <= j < i ==> a[|addrs4| + j] == AddrInfo(addrs6[j], ZeroGeo, 0)
      invariant forall j :: |addrs4| + i <= j < a.Length ==> a[j] == AddrInfo([], ZeroGeo, 0)
    {
      a[i + |addrs4|] := a[i + |addrs4|].(addr := addrs6[i]);
    }
    list := a[..];
  }

  /** The body of the geo loop for one uplink: each address takes the old entry's Geo and LastGeoTimestamp. */
  method PreserveGeo(oldStatus: DeviceNetworkStatus, u: NetworkUplink) returns (r: NetworkUplink)
    ensures r.ifName == u.ifName && r.free == u.free && |r.addrInfoList| == |u.addrInfoList|
    ensures forall i :: 0 <= i < |u.addrInfoList| ==>
              r.addrInfoList[i] == InheritGeo(oldStatus, u.ifName, u.addrInfoList[i])
  {
    ghost var target := seq(|u.addrInfoList|, j requires 0 <= j < |u.addrInfoList| =>
                                                InheritGeo(oldStatus, u.ifName, u.addrInfoList[j]));
    var a := new AddrInfo[|u.addrInfoList|](i requires 0 <= i < |u.addrInfoList| => u.addrInfoList[i]);
    for i := 0 to a.Length
      invariant a[..i] == target[..i]
      invariant a[i..] == u.addrInfoList[i..]
    {
      assert a[i] == u.addrInfoList[i];
      var oai := LookupUplinkStatusAddr(oldStatus, u.ifName, a[i].addr);
      a[i] := WithGeoOf(a[i], oai);
    }
    r := u.(addrInfoList := a[..]);
  }

  /** The body of the first loop for one uplink: UplinkStatus[ix] before the geo loop. */
  method NewUplink(u: string, freeUplinks: seq<string>, link: LinkLookup) returns (s: NetworkUplink)
    ensures IsNewUplink(s, u, freeUplinks, link)
  {
    s := NetworkUplink(u, false, []);
    var free := IsFree(u, freeUplinks);
    if free {
      s := s.(free := true);
    }
    if link.NoLink? {
      // the uplink keeps its entry, with no addresses
      return;
    }
    var addrs4 := if link.v4.Some? then link.v4.value else [];
    var addrs6 := if link.v6.Some? then link.v6.value else [];
    var list := FillAddrInfoList(addrs4, addrs6);
    s := s.(addrInfoList := list);
  }

  /** The geo loop turns the entry the first loop built into the entry with inherited geolocation. */
  lemma GeoOfNewUplink(s: NetworkUplink, r: NetworkUplink, u: string, freeUplinks: seq<string>, link: LinkLookup,
                       oldStatus: DeviceNetworkStatus)
    requires IsNewUplink(s, u, freeUplinks, link)
    requires r.ifName == s.ifName && r.free == s.free && |r.addrInfoList| == |s.addrInfoList|
    requires forall i :: 0 <= i < |s.addrInfoList| ==> r.addrInfoList[i] == InheritGeo(oldStatus, s.ifName, s.addrInfoList[i])
    ensures IsUplinkWithGeo(r, u, freeUplinks, link, oldStatus)
  {
  }

  /**
   * MakeDeviceNetworkStatus up to the immediate geolocation check: one entry
   * per configured uplink, in order. The error it returns is always nil: the
   * loop's `err` is a new variable that shadows the function's.
   */
  method MakeDeviceNetworkStatus(globalConfig: DeviceNetworkConfig, oldStatus: DeviceNetworkStatus,
                                 linkByName: string -> LinkLookup)
    returns (globalStatus: DeviceNetworkStatus, err: Option<string>)
    ensures err == None
    ensures |globalStatus.uplinkStatus| == |globalConfig.uplink|
    ensures forall ix :: 0 <= ix < |globalConfig.uplink| ==>
              IsUplinkWithGeo(globalStatus.uplinkStatus[ix], globalConfig.uplink[ix], globalConfig.freeUplinks,
                              linkByName(globalConfig.uplink[ix]), oldStatus)
  {
    err := None;
    var ups := NewUplinks(globalConfig, linkByName);
    // preserve geo info for existing interface and IP address
    PreserveGeoAll(ups, globalConfig, oldStatus, linkByName);
    globalStatus := DeviceNetworkStatus(ups[..]);
  }

  /** The first loop of MakeDeviceNetworkStatus: UplinkStatus, one new entry per configured uplink. */
  method NewUplinks(globalConfig: DeviceNetworkConfig, linkByName: string -> LinkLookup)
    returns (ups: array<NetworkUplink>)
    ensures fresh(ups) && ups.Length == |globalConfig.uplink|
    ensures forall j :: 0 <= j < ups.Length ==>
              IsNewUplink(ups[j], globalConfig.uplink[j], globalConfig.freeUplinks, linkByName(globalConfig.uplink[j]))
  {
    var n := |globalConfig.uplink|;
    ups := new NetworkUplink[n](_ => NetworkUplink("", false, []));
    for ix := 0 to n
      invariant forall j :: 0 <= j < ix ==>
                  IsNewUplink(ups[j], globalConfig.uplink[j], globalConfig.freeUplinks, linkByName(globalConfig.uplink[j]))
    {
      var u := globalConfig.uplink[ix];
      var entry := NewUplink(u, globalConfig.freeUplinks, linkByName(u));
      ups[ix] := entry;
    }
  }

  /** The geo loop of MakeDeviceNetworkStatus, over every entry of UplinkStatus in place. */
  method PreserveGeoAll(ups: array<NetworkUplink>, globalConfig: DeviceNetworkConfig, oldStatus: DeviceNetworkStatus,
                        linkByName: string -> LinkLookup)
    requires ups.Length == |globalConfig.uplink|
    requires forall j :: 0 <= j < ups.Length ==>
               IsNewUplink(ups[j], globalConfig.uplink[j], globalConfig.freeUplinks, linkByName(globalConfig.uplink[j]))
    modifies ups
    ensures forall j :: 0 <= j < ups.Length ==>
              IsUplinkWithGeo(ups[j], globalConfig.uplink[j], globalConfig.freeUplinks,
                              linkByName(globalConfig.uplink[j]), oldStatus)
  {
    var n := ups.Length;
    for ui := 0 to n
      invariant forall j :: 0 <= j < ui ==>
                  IsUplinkWithGeo(ups[j], globalConfig.uplink[j], globalConfig.freeUplinks,
                                  linkByName(globalConfig.uplink[j]), oldStatus)
      invariant forall j :: ui <= j < n ==>
                  IsNewUplink(ups[j], globalConfig.uplink[j], globalConfig.freeUplinks, linkByName(globalConfig.uplink[j]))
    {
      var updated := PreserveGeo(oldStatus, ups[ui]);
      GeoOfNewUplink(ups[ui], updated, globalConfig.uplink[ui], globalConfig.freeUplinks,
                     linkByName(globalConfig.uplink[ui]), oldStatus);
      ghost var before := ups[..];
      ups[ui] := updated;
      assert forall j :: 0 <= j < n && j != ui ==> ups[j] == before[j];
    }
  }

  /** An address whose (interface, address) pair is new gets no geolocation and the zero timestamp. */
  lemma NewAddressHasNoGeo(oldStatus: DeviceNetworkStatus, ifname: string, addr: IP)
    requires forall u :: 0 <= u < |oldStatus.uplinkStatus| && oldStatus.uplinkStatus[u].ifName == ifname ==>
               forall i :: 0 <= i < |oldStatus.uplinkStatus[u].addrInfoList| ==>
                 !IpEqual(oldStatus.uplinkStatus[u].addrInfoList[i].addr, addr)
    ensures InheritGeo(oldStatus, ifname, NewAddrInfo(addr)) == NewAddrInfo(addr)
  {
    LookupAddrMeaning(oldStatus.uplinkStatus, ifname, addr);
  }

  /** An address already known under the same interface name keeps that entry's geolocation. */
  lemma KnownAddressKeepsGeo(oldStatus: DeviceNetworkStatus, u: nat, i: nat, addr: IP)
    requires u < |oldStatus.uplinkStatus| && i < |oldStatus.uplinkStatus[u].addrInfoList|
    requires forall v :: 0 <= v < |oldStatus.uplinkStatus| && oldStatus.uplinkStatus[v].ifName == oldStatus.uplinkStatus[u].ifName
               ==> v == u
    requires forall j :: 0 <= j < i ==> !IpEqual(oldStatus.uplinkStatus[u].addrInfoList[j].addr, addr)
    requires IpEqual(oldStatus.uplinkStatus[u].addrInfoList[i].addr, addr)
    ensures var o := oldStatus.uplinkStatus[u].addrInfoList[i];
            InheritGeo(oldStatus, oldStatus.uplinkStatus[u].ifName, NewAddrInfo(addr)) == AddrInfo(addr, o.geo, o.lastGeoTimestamp)
  {
    KnownAddressFound(oldStatus.uplinkStatus, u, i, addr);
  }

  lemma {:induction false} FirstEqualAddrAt(list: seq<AddrInfo>, i: nat, addr: IP)
    requires i < |list| && IpEqual(list[i].addr, addr)
    requires forall j :: 0 <= j < i ==> !IpEqual(list[j].addr, addr)
    ensures FirstEqualAddr(list, addr) == Some(list[i])
  {
    if i > 0 {
      assert forall j :: 0 <= j < i - 1 ==> list[1..][j] == list[j + 1];
      FirstEqualAddrAt(list[1..], i - 1, addr);
    }
  }

  lemma {:induction false} KnownAddressFound(ups: seq<NetworkUplink>, u: nat, i: nat, addr: IP)
    requires u < |ups| && i < |ups[u].addrInfoList|
    requires forall v :: 0 <= v < |ups| && ups[v].ifName == ups[u].ifName ==> v == u
    requires forall j :: 0 <= j < i ==> !IpEqual(ups[u].addrInfoList[j].addr, addr)
    requires IpEqual(ups[u].addrInfoList[i].addr, addr)
    ensures LookupAddr(ups, ups[u].ifName, addr) == Some(ups[u].addrInfoList[i])
  {
    FirstEqualAddrAt(ups[u].addrInfoList, i, addr);
    if u > 0 {
      var tail := ups[1..];
      assert tail[u - 1] == ups[u];
      assert forall v :: 0 <= v < |tail| && tail[v].ifName == tail[u - 1].ifName ==> v == u - 1 by {
        forall v | 0 <= v < |tail| && tail[v].ifName == tail[u - 1].ifName ensures v == u - 1 {
          assert ups[v + 1] == tail[v];
        }
      }
      KnownAddressFound(tail, u - 1, i, addr);
    }
  }
}
