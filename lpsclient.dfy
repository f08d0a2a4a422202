/**
 * What the two variants of zedagent's local-profile handling share word for
 * word: the base URL of the local profile server (LPS), the loop that asks
 * every known server for the current profile, and the checkpoint file the
 * received profile is kept in.
 *
 * url.Parse is modelled for the URLs makeLPSBaseURL builds ("http://" and an
 * address): the control-character check, the split at '#', '?' and '/', the
 * user information before the last '@', the bracketed host and the port
 * checks, and URL.Port().
 */
module LpsClient {
  import opened Wrappers
  import opened Text

  const DefaultLPSPort: string := "8888"
  const ProfileURLPath: string := "/api/v1/local_profile"
  const SavedLPSFile: string := "lastlocalprofile"
  const StatusOK: nat := 200

  // ------------------------------------------------------------ url.Parse

  /** The bytes net/url refuses anywhere before the fragment. */
  predicate IsCtl(c: char) { (c as int) < 0x20 || c as int == 0x7f }

  predicate IsDecimalChar(c: char) { '0' <= c <= '9' }

  predicate AllDecimal(s: string) { forall i :: 0 <= i < |s| ==> IsDecimalChar(s[i]) }

  /** net/url's validOptionalPort: empty, or ':' and digits. */
  predicate ValidOptionalPort(p: string)
  {
    p == [] || (p[0] == ':' && AllDecimal(p[1..]))
  }

  predicate IsAlphaNumeric(c: char) { 'a' <= c <= 'z' || 'A' <= c <= 'Z' || '0' <= c <= '9' }

  /** net/url's validUserinfo. */
  predicate ValidUserinfo(s: string)
  {
    forall i :: 0 <= i < |s| ==> IsAlphaNumeric(s[i]) || s[i] in "-._:~!$&'()*+,;=%@"
  }

  datatype UrlError = InvalidControlCharacter | InvalidUserinfo | MissingBracket | InvalidPort(colonPort: string)

  function UrlErrorText(e: UrlError): string
  {
    match e
    case InvalidControlCharacter => "net/url: invalid control character in URL"
    case InvalidUserinfo => "net/url: invalid userinfo"
    case MissingBracket => "missing ']' in host"
    case InvalidPort(p) => "invalid port \"" + p + "\" after host"
  }

  /** The authority of "http://" + addr: up to the first '/', after cutting at '#' and '?'. */
  function Authority(addr: string): (a: string)
    ensures a <= addr && '#' !in a && '?' !in a && '/' !in a
  {
    Before(Before(Before(addr, '#'), '?'), '/')
  }

  /** parseHost: the checks on a host, bracketed or not. */
  function HostError(host: string): (e: Option<UrlError>)
    ensures e.Some? ==> e.value == MissingBracket || e.value.InvalidPort?
  {
    if |host| > 0 && host[0] == '[' then
      var i := LastIndexOfElem(host, ']');
      if i < 0 then Some(MissingBracket)
      else if !ValidOptionalPort(host[i + 1..]) then Some(InvalidPort(host[i + 1..]))
      else None
    else
      var i := LastIndexOfElem(host, ':');
      if i >= 0 && !ValidOptionalPort(host[i..]) then Some(InvalidPort(host[i..])) else None
  }

  /** URL.Port(): the digits after the last ':' of the host, when they form a port. */
  function Port(host: string): (p: string)
    ensures p != [] ==> |p| < |host| && host[|host| - |p| - 1..] == ":" + p
    ensures AllDecimal(p)
  {
    var colon := LastIndexOfElem(host, ':');
    if colon >= 0 && ValidOptionalPort(host[colon..]) then
      assert host[colon..][1..] == host[colon + 1..];
      host[colon + 1..]
    else []
  }

  /** url.Parse("http://" + addr): its error, or its port. */
  function ParsePort(addr: string): (r: Result<string>)
  {
    var beforeFragment := Before(addr, '#');
    var authority := Authority(addr);
    var at := LastIndexOfElem(authority, '@');
    var host := authority[at + 1..];
    if exists i :: 0 <= i < |beforeFragment| && IsCtl(beforeFragment[i]) then
      Err(UrlFailure("http://" + beforeFragment, InvalidControlCharacter))
    else if HostError(host).Some? then
      Err(UrlFailure("http://" + beforeFragment, HostError(host).value))
    else if at >= 0 && !ValidUserinfo(authority[..at]) then
      Err(UrlFailure("http://" + beforeFragment, InvalidUserinfo))
    else
      Ok(Port(host))
  }

  /** url.Error's text for the "parse" operation (the URL is quoted without escaping). */
  function UrlFailure(url: string, e: UrlError): string
  {
    "parse \"" + url + "\": " + UrlErrorText(e)
  }

  /**
   * makeLPSBaseURL: "http://" + addr, with ":8888" appended exactly when the
   * parsed URL has no port; an address url.Parse refuses is an error.
   */
  function MakeLPSBaseURL(lpsAddr: string): (r: Result<string>)
    ensures r.Ok? <==> ParsePort(lpsAddr).Ok?
    ensures r.Ok? ==> r.value == "http://" + lpsAddr || r.value == "http://" + lpsAddr + ":" + DefaultLPSPort
    ensures r.Ok? ==> (r.value == "http://" + lpsAddr + ":" + DefaultLPSPort <==> ParsePort(lpsAddr).value == [])
    ensures r.Err? ==> r.error == "url.Parse: " + ParsePort(lpsAddr).error
  {
    var lpsURL := "http://" + lpsAddr;
    match ParsePort(lpsAddr)
    case Err(e) => Err("url.Parse: " + e)
    case Ok(port) => Ok(if port == "" then lpsURL + ":" + DefaultLPSPort else lpsURL)
  }

  /** A character url.Parse neither refuses nor splits the address at. */
  predicate Unsplit(c: char) { !IsCtl(c) && c != '#' && c != '?' && c != '/' && c != '@' }

  /** A host name: no character that url.Parse splits at or checks. */
  predicate PlainHost(h: string)
  {
    forall i :: 0 <= i < |h| ==> Unsplit(h[i]) && h[i] != ':' && h[i] != '[' && h[i] != ']'
  }

  /** An address with no separator is all authority and all host. */
  lemma UnsplitAddress(addr: string)
    requires forall i :: 0 <= i < |addr| ==> Unsplit(addr[i])
    ensures Before(addr, '#') == addr && Authority(addr) == addr && LastIndexOfElem(addr, '@') == -1
    ensures !exists i :: 0 <= i < |addr| && IsCtl(addr[i])
  {
  }

  /** The last occurrence, found from its position. */
  lemma {:induction false} LastIndexOfElemIs<T>(s: seq<T>, x: T, k: nat)
    requires k < |s| && s[k] == x && forall i :: k < i < |s| ==> s[i] != x
    ensures LastIndexOfElem(s, x) == k
    decreases |s|
  {
    if k < |s| - 1 {
      LastIndexOfElemIs(s[..|s| - 1], x, k);
    }
  }

  /** An address with no separator is all host: only the host checks apply. */
  lemma ParseUnsplit(addr: string)
    requires forall i :: 0 <= i < |addr| ==> Unsplit(addr[i])
    ensures HostError(addr).None? ==> ParsePort(addr) == Ok(Port(addr))
    ensures HostError(addr).Some? ==> ParsePort(addr) == Err(UrlFailure("http://" + addr, HostError(addr).value))
  {
    UnsplitAddress(addr);
    assert addr[0..] == addr;
  }

  /** The base URL of an address with no separator, from its host checks and port. */
  lemma BaseURLOfUnsplit(addr: string)
    requires forall i :: 0 <= i < |addr| ==> Unsplit(addr[i])
    ensures HostError(addr).None? && Port(addr) == [] ==> MakeLPSBaseURL(addr) == Ok("http://" + addr + ":" + DefaultLPSPort)
    ensures HostError(addr).None? && Port(addr) != [] ==> MakeLPSBaseURL(addr) == Ok("http://" + addr)
    ensures HostError(addr).Some? ==>
              MakeLPSBaseURL(addr) == Err("url.Parse: " + UrlFailure("http://" + addr, HostError(addr).value))
  {
    ParseUnsplit(addr);
  }

  /** A bare host name gets the default port. */
  lemma PlainHostGetsDefaultPort(h: string)
    requires PlainHost(h)
    ensures MakeLPSBaseURL(h) == Ok("http://" + h + ":" + DefaultLPSPort)
  {
    PlainHostHasNoPort(h);
    BaseURLOfUnsplit(h);
  }

  /** A host name passes the host checks and has no port. */
  lemma PlainHostHasNoPort(h: string)
    requires PlainHost(h)
    ensures AllUnsplit(h) && HostError(h).None? && Port(h) == []
  {
    assert LastIndexOfElem(h, ':') == -1;
  }

  lemma ConcatAssoc<T>(a: seq<T>, b: seq<T>, c: seq<T>)
    ensures a + (b + c) == a + b + c
  {
  }

  predicate AllUnsplit(s: string) { forall i :: 0 <= i < |s| ==> Unsplit(s[i]) }

  lemma AllUnsplitConcat(a: string, b: string)
    requires AllUnsplit(a) && AllUnsplit(b)
    ensures AllUnsplit(a + b)
  {
    assert forall i :: 0 <= i < |a + b| ==> (a + b)[i] == if i < |a| then a[i] else b[i - |a|];
  }

  /** Where the last colon of a host name, a colon and a tail without one is. */
  lemma ColonSplit(h: string, tail: string)
    requires PlainHost(h) && AllUnsplit(tail) && ':' !in tail
    ensures AllUnsplit(h + ":" + tail) && LastIndexOfElem(h + ":" + tail, ':') == |h|
    ensures (h + ":" + tail)[|h|..] == ":" + tail && (h + ":" + tail)[|h| + 1..] == tail
    ensures |h| > 0 ==> (h + ":" + tail)[0] == h[0]
  {
    var addr := h + ":" + tail;
    ConcatAssoc(h, ":", tail);
    assert addr[|h|..] == ":" + tail;
    assert addr[|h| + 1..] == tail;
    forall i | 0 <= i < |addr|
      ensures Unsplit(addr[i]) && (i > |h| ==> addr[i] != ':')
    {
      if i < |h| {
        assert addr[i] == h[i];
      } else if i > |h| {
        assert addr[i] == tail[i - |h| - 1];
      }
    }
    LastIndexOfElemIs(addr, ':', |h|);
    assert AllUnsplit(addr);
    assert |h| > 0 ==> addr[0] == h[0];
  }

  /** A host name, a colon and what follows it, as url.Parse sees them. */
  lemma HostColonTail(h: string, tail: string)
    requires PlainHost(h) && AllUnsplit(tail) && ':' !in tail
    ensures AllUnsplit(h + ":" + tail)
    ensures HostError(h + ":" + tail) == (if AllDecimal(tail) then None else Some(InvalidPort(":" + tail)))
    ensures Port(h + ":" + tail) == (if AllDecimal(tail) then tail else [])
  {
    ColonSplit(h, tail);
    assert (":" + tail)[1..] == tail;
  }

  /** A host name with a numeric port is kept as it is. */
  lemma ExplicitPortIsKept(h: string, port: string)
    requires PlainHost(h) && port != [] && AllDecimal(port)
    ensures MakeLPSBaseURL(h + ":" + port) == Ok("http://" + h + ":" + port)
  {
    assert AllUnsplit(port) && ':' !in port by {
      assert forall i :: 0 <= i < |port| ==> IsDecimalChar(port[i]);
    }
    HostColonTail(h, port);
    BaseURLOfUnsplit(h + ":" + port);
    ConcatAssoc("http://", h + ":", port);
    ConcatAssoc("http://", h, ":");
  }

  /** A port with a non-digit is refused by url.Parse. */
  lemma InvalidPortIsRefused(h: string, port: string)
    requires PlainHost(h) && PlainHost(port) && !AllDecimal(port)
    ensures MakeLPSBaseURL(h + ":" + port) == Err("url.Parse: " + UrlFailure("http://" + h + ":" + port, InvalidPort(":" + port)))
  {
    assert AllUnsplit(port) && ':' !in port;
    HostColonTail(h, port);
    BaseURLOfUnsplit(h + ":" + port);
    ConcatAssoc("http://", h + ":", port);
    ConcatAssoc("http://", h, ":");
  }

  /**
   * A trailing ':' with no digits is a valid empty port for url.Parse, so
   * URL.Port() is empty and the default port follows the colon.
   */
  lemma EmptyPortGetsSecondColon(h: string)
    requires PlainHost(h)
    ensures MakeLPSBaseURL(h + ":") == Ok("http://" + h + ":" + ":" + DefaultLPSPort)
  {
    HostColonTail(h, []);
    assert h + ":" + [] == h + ":";
    BaseURLOfUnsplit(h + ":");
    ConcatAssoc("http://", h, ":");
  }

  /** A bracketed IPv6 address without a port gets the default port. */
  lemma BracketedAddressGetsDefaultPort(v6: string)
    requires AllUnsplit(v6) && ']' !in v6
    ensures MakeLPSBaseURL("[" + v6 + "]") == Ok("http://" + "[" + v6 + "]" + ":" + DefaultLPSPort)
  {
    var addr := "[" + v6 + "]";
    assert AllUnsplit("[") && AllUnsplit("]");
    AllUnsplitConcat("[", v6);
    AllUnsplitConcat("[" + v6, "]");
    LastIndexOfElemIs(addr, ']', |addr| - 1);
    assert addr[|addr|..] == [];
    var colon := LastIndexOfElem(addr, ':');
    assert colon >= 0 ==> addr[colon..][|addr[colon..]| - 1] == ']';
    assert Port(addr) == [];
    BaseURLOfUnsplit(addr);
    ConcatAssoc("http://", "[" + v6, "]");
    ConcatAssoc("http://", "[", v6);
  }

  /** An opening bracket without a closing one is refused. */
  lemma MissingBracketIsRefused(v6: string)
    requires AllUnsplit(v6) && ']' !in v6
    ensures MakeLPSBaseURL("[" + v6) == Err("url.Parse: " + UrlFailure("http://" + "[" + v6, MissingBracket))
  {
    var addr := "[" + v6;
    assert AllUnsplit("[");
    AllUnsplitConcat("[", v6);
    assert ']' !in addr;
    assert LastIndexOfElem(addr, ']') == -1;
    BaseURLOfUnsplit(addr);
    ConcatAssoc("http://", "[", v6);
  }

  // ------------------------------------------------------------ configuration

  /** The fields of EdgeDevConfig that parseProfile reads. */
  datatype EdgeDevConfig = EdgeDevConfig(globalProfile: string, localProfileServer: string, profileServerToken: string)

  /** The other parts of zedagent told about a new server address. */
  datatype Notice = RadioPOST | LocalAppInfoTicker | LocalAppInfoPOST | LocalDevInfoTicker | LocalDevInfoPOST

  /** What parseProfile triggers, in order, after triggerGetLPS, when the address changes. */
  const ServerChangeNotices: seq<Notice> :=
    [RadioPOST, LocalAppInfoTicker, LocalAppInfoPOST, LocalDevInfoTicker, LocalDevInfoPOST]

  // ----------------------------------------------------------- lpsMap servers

  /** One local server of an application: its address and the bridge IP to send from. */
  datatype LpsServer = LpsServer(lpsAddr: string, bridgeIP: seq<Byte>)

  /** profile.LocalProfile. */
  datatype LocalProfile = LocalProfile(localProfile: string, serverToken: string)

  /** zedcloud.SendLocalProto: a transport error, or a response with its decoded body. */
  datatype SendResult = SendFailed(err: string) | Response(statusCode: nat, body: LocalProfile)

  /** The answer of the server at each full URL, reached over each bridge from each IP. */
  type Sender = (string, string, seq<Byte>) -> SendResult

  function Send(send: Sender, bridgeName: string, srv: LpsServer): SendResult
  {
    send(srv.lpsAddr + ProfileURLPath, bridgeName, srv.bridgeIP)
  }

  /** A server getLPSConfig takes the profile from: status OK and the configured token. */
  predicate Accepted(send: Sender, token: string, bridgeName: string, srv: LpsServer)
  {
    var resp := Send(send, bridgeName, srv);
    resp.Response? && resp.statusCode == StatusOK && resp.body.serverToken == token
  }

  /** Server k of bridge b is accepted. */
  predicate AcceptedAt(servers: map<string, seq<LpsServer>>, token: string, send: Sender, b: string, k: int)
  {
    b in servers && 0 <= k < |servers[b]| && Accepted(send, token, b, servers[b][k])
  }

  /** Server k of bridge b is the first accepted one of its bridge. */
  predicate FirstAcceptedAt(servers: map<string, seq<LpsServer>>, token: string, send: Sender, b: string, k: int)
  {
    AcceptedAt(servers, token, send, b, k) && forall j :: 0 <= j < k ==> !Accepted(send, token, b, servers[b][j])
  }

  /** Some server of the map would be accepted. */
  ghost predicate SomeAccepted(servers: map<string, seq<LpsServer>>, token: string, send: Sender)
  {
    exists b, k :: AcceptedAt(servers, token, send, b, k)
  }

  /** The line errList gets for a server that is not accepted. */
  function AttemptError(resp: SendResult): string
  {
    match resp
    case SendFailed(e) => "SendLocal: " + e
    case Response(code, body) =>
      if code != StatusOK then "SendLocalProto: wrong response status code: " + DecimalText(code)
      else "invalid token submitted by local server (" + body.serverToken + ")"
  }

  /**
   * getLPSConfig. `update` is the outcome of updateLPSMap, which runs only
   * when the map is not up to date; `servers` is lpsMap.servers as the fetch
   * finds it. The bridges are visited in an arbitrary order, the servers of
   * one bridge in order, and the first accepted response is returned.
   */
  method GetLPSConfig(lpsURL: string, upToDate: bool, update: Option<string>,
                      servers: map<string, seq<LpsServer>>, token: string, send: Sender)
    returns (r: Result<LocalProfile>)
    ensures !upToDate && update.Some? ==> r == Err("getLPSConfig: updateLPSMap: " + update.value)
    ensures (upToDate || update.None?) && |servers| == 0 ==>
              r == Err("getLPSConfig: cannot find any configured apps for lpsURL: " + lpsURL)
    ensures (upToDate || update.None?) ==> (r.Ok? <==> SomeAccepted(servers, token, send))
    ensures r.Ok? ==> r.value.serverToken == token
    ensures r.Ok? ==> exists b, k :: FirstAcceptedAt(servers, token, send, b, k)
                                      && Send(send, b, servers[b][k]).body == r.value
    ensures r.Err? && (upToDate || update.None?) && |servers| > 0 ==>
              "getLPSConfig: all attempts failed: " <= r.error
  {
    if !upToDate && update.Some? {
      return Err("getLPSConfig: updateLPSMap: " + update.value);
    }
    if |servers| == 0 {
      return Err("getLPSConfig: cannot find any configured apps for lpsURL: " + lpsURL);
    }
    var errList: seq<string> := [];
    var remaining := servers.Keys;
    while remaining != {}
      invariant remaining <= servers.Keys
      invariant forall b, k :: b in servers && b !in remaining && 0 <= k < |servers[b]| ==>
                  !Accepted(send, token, b, servers[b][k])
      decreases remaining
    {
      var bridgeName :| bridgeName in remaining;
      var list := servers[bridgeName];
      var i := 0;
      while i < |list|
        invariant i <= |list|
        invariant forall j :: 0 <= j < i ==> !Accepted(send, token, bridgeName, list[j])
      {
        var srv := list[i];
        var resp := send(srv.lpsAddr + ProfileURLPath, bridgeName, srv.bridgeIP);
        if resp.Response? && resp.statusCode == StatusOK && resp.body.serverToken == token {
          assert FirstAcceptedAt(servers, token, send, bridgeName, i);
          return Ok(resp.body);
        }
        errList := errList + [AttemptError(resp)];
        i := i + 1;
      }
      remaining := remaining - {bridgeName};
    }
    return Err("getLPSConfig: all attempts failed: " + Join(errList, ";"));
  }

  /**
   * getLPS's call of getLPSConfig: the received profile, or None when the
   * fetch fails (getLPS only logs the error).
   */
  method FetchProfile(lpsURL: string, upToDate: bool, servers: map<string, seq<LpsServer>>, token: string,
                      env: Environment)
    returns (fetched: Option<LocalProfile>)
    ensures fetched.Some? <==> FetchSucceeds(upToDate, servers, token, env)
    ensures fetched.Some? ==> fetched.value.serverToken == token && Offered(servers, token, env.send, fetched.value)
  {
    var config := GetLPSConfig(lpsURL, upToDate, env.update, servers, token, env.send);
    if config.Err? {
      return None;
    }
    return Some(config.value);
  }

  /** The profile p is an accepted server's answer. */
  ghost predicate Offered(servers: map<string, seq<LpsServer>>, token: string, send: Sender, p: LocalProfile)
  {
    exists b, k :: AcceptedAt(servers, token, send, b, k) && Send(send, b, servers[b][k]).body == p
  }

  // --------------------------------------------------------------- checkpoint

  /** The actions on the checkpoint file lastlocalprofile. */
  datatype CheckpointOp = Clean | Touch | Save(contents: seq<Byte>)

  /** Whether the file exists after the actions. */
  function ExistsAfter(present0: bool, ops: seq<CheckpointOp>): bool
    decreases |ops|
  {
    if ops == [] then present0
    else ExistsAfter(match ops[0] case Clean => false case Touch => present0 case Save(_) => true, ops[1..])
  }

  /** The checkpoint file of the received profile: its existence and every action on it. */
  class Checkpoint {
    var present: bool
    var ops: seq<CheckpointOp>

    constructor (present0: bool)
      ensures present == present0 && ops == []
    {
      present, ops := present0, [];
    }

    /** cleanSavedConfig, touchSavedConfig or saveConfig on the file. */
    method Record(op: CheckpointOp)
      modifies this
      ensures ops == old(ops) + [op]
      ensures present == ExistsAfter(old(present), [op])
    {
      ops := ops + [op];
      present := match op case Clean => false case Touch => present case Save(_) => true;
    }
  }

  /** proto.Marshal of a profile, or None when marshalling fails. */
  type Marshaller = LocalProfile -> Option<seq<Byte>>

  /**
   * The actions of saveOrTouchReceivedLPS: a touch when the stored profile
   * name and token equal the received ones and the file exists, else a save
   * of the marshalled profile (nothing when marshalling fails).
   */
  function SaveOrTouchOps(stored: string, token: string, fileExists: bool, p: LocalProfile, marshal: Marshaller)
    : (ops: seq<CheckpointOp>)
    ensures ops == [Touch] <==> stored == p.localProfile && token == p.serverToken && fileExists
    ensures ops == [] <==> !(stored == p.localProfile && token == p.serverToken && fileExists) && marshal(p).None?
    ensures ops != [] && ops != [Touch] ==> ops == [Save(marshal(p).value)]
  {
    if stored == p.localProfile && token == p.serverToken && fileExists then [Touch]
    else match marshal(p)
      case None => []
      case Some(contents) => [Save(contents)]
  }

  /** A touch or a failed marshal leaves the file's existence alone; a save makes it exist. */
  lemma SaveOrTouchKeepsFile(stored: string, token: string, fileExists: bool, p: LocalProfile, marshal: Marshaller)
    ensures ExistsAfter(fileExists, SaveOrTouchOps(stored, token, fileExists, p, marshal))
            == (fileExists || marshal(p).Some?)
  {
  }

  /** A profile just saved (or confirmed on disk) is touched, not saved again, when received unchanged. */
  lemma SecondReceiptTouches(stored: string, token: string, fileExists: bool, p: LocalProfile, marshal: Marshaller)
    requires token == p.serverToken && marshal(p).Some?
    ensures var ops := SaveOrTouchOps(stored, token, fileExists, p, marshal);
            SaveOrTouchOps(p.localProfile, token, ExistsAfter(fileExists, ops), p, marshal) == [Touch]
  {
  }

  /** What one fetch meets: updateLPSMap's outcome, the servers' answers and proto.Marshal. */
  datatype Environment = Environment(update: Option<string>, send: Sender, marshal: Marshaller)

  /** An environment in which nothing answers; only used where no fetch is made. */
  const Offline: Environment := Environment(None, (u: string, b: string, ip: seq<Byte>) => SendFailed("offline"),
                                            (p: LocalProfile) => None)

  /** getLPSConfig returns a profile: the server map is up to date (or updated) and some server is accepted. */
  ghost predicate FetchSucceeds(upToDate: bool, servers: map<string, seq<LpsServer>>, token: string, env: Environment)
  {
    (upToDate || env.update.None?) && SomeAccepted(servers, token, env.send)
  }

  /**
   * The profile getLPS returns, for server address lps and last known profile
   * `known`, given what the fetch (if made) returned: none without a server,
   * the last known one when the fetch is skipped or fails, none when the URL
   * cannot be built, else the received one.
   */
  function GetLPSResult(lps: string, known: string, skipFetch: bool, fetched: Option<LocalProfile>): (r: string)
    ensures r != known ==> lps == "" || (!skipFetch && (MakeLPSBaseURL(lps).Err? || fetched.Some?))
    ensures lps == "" ==> r == ""
    ensures lps != "" && skipFetch ==> r == known
    ensures lps != "" && !skipFetch && MakeLPSBaseURL(lps).Err? ==> r == ""
    ensures lps != "" && !skipFetch && MakeLPSBaseURL(lps).Ok? && fetched.Some? ==> r == fetched.value.localProfile
  {
    if lps == "" then ""
    else if skipFetch then known
    else if MakeLPSBaseURL(lps).Err? then ""
    else if fetched.None? then known
    else fetched.value.localProfile
  }

  /**
   * The checkpoint actions of getLPS: a clean when the server is gone and a
   * profile was known, saveOrTouchReceivedLPS's actions when a profile was
   * received, none otherwise.
   */
  function GetLPSActions(lps: string, known: string, token: string, fileExists: bool,
                         fetched: Option<LocalProfile>, marshal: Marshaller): (ops: seq<CheckpointOp>)
    ensures Clean in ops <==> lps == "" && known != ""
    ensures |ops| <= 1
  {
    if lps == "" then (if known != "" then [Clean] else [])
    else if fetched.Some? then SaveOrTouchOps(known, token, fileExists, fetched.value, marshal)
    else []
  }

  /** One server, on bridge "bn1", that answers every request with the same profile. */
  function OneServer(): map<string, seq<LpsServer>>
  {
    map["bn1" := [LpsServer("http://10.0.0.2:8888", [10, 0, 0, 1])]]
  }

  function AnswerWith(p: LocalProfile): Environment
  {
    Environment(None, (u: string, b: string, ip: seq<Byte>) => Response(StatusOK, p), (q: LocalProfile) => None)
  }

  /**
   * When every server answers with p, any map with a server on some bridge
   * makes the fetch succeed, and p is the only profile it can return.
   */
  lemma AnswerWithFetches(upToDate: bool, servers: map<string, seq<LpsServer>>, b: string, p: LocalProfile)
    requires b in servers && |servers[b]| > 0
    ensures FetchSucceeds(upToDate, servers, p.serverToken, AnswerWith(p))
    ensures forall q :: Offered(servers, p.serverToken, AnswerWith(p).send, q) ==> q == p
  {
    assert AcceptedAt(servers, p.serverToken, AnswerWith(p).send, b, 0);
  }

  /** getLPS against a plain host whose servers all answer with p returns p's name. */
  lemma AnswerWithResult(lps: string, known: string, upToDate: bool, servers: map<string, seq<LpsServer>>, b: string,
                         p: LocalProfile, fetched: Option<LocalProfile>)
    requires PlainHost(lps) && lps != "" && b in servers && |servers[b]| > 0
    requires fetched.Some? <==> MakeLPSBaseURL(lps).Ok? && FetchSucceeds(upToDate, servers, p.serverToken, AnswerWith(p))
    requires fetched.Some? ==> Offered(servers, p.serverToken, AnswerWith(p).send, fetched.value)
    ensures GetLPSResult(lps, known, false, fetched) == p.localProfile
  {
    PlainHostGetsDefaultPort(lps);
    AnswerWithFetches(upToDate, servers, b, p);
  }

  /** A buffered notification channel of the fetch task (made elsewhere, with some capacity). */
  class NotifyChannel {
    var pending: nat
    const capacity: nat

    constructor (capacity: nat)
      ensures this.capacity == capacity && pending == 0
    {
      this.capacity := capacity;
      pending := 0;
    }

    /** A non-blocking send: queued when there is room, dropped when the channel is full. */
    method TrySend()
      requires pending <= capacity
      modifies this
      ensures pending <= capacity
      ensures old(pending) < capacity ==> pending == old(pending) + 1
      ensures old(pending) == capacity ==> pending == old(pending)
    {
      if pending < capacity {
        pending := pending + 1;
      }
    }
  }
}
