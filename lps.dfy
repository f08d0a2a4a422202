/**
 * The second variant of zedagent's profile state (handlelps.go). It has the
 * same functions as handleProfile.go, but everywhere the first variant reads
 * or writes the local profile, this one uses ctx.lps, the field that also
 * holds the server address. The model keeps that: the address and the
 * received profile share one field.
 */
module Lps {
  import opened Wrappers
  import opened Text
  import opened LpsClient

  /** The part of getconfigContext the profile code of this variant uses. */
  class LpsContext {
    var globalProfile: string
    var currentProfile: string
    var lps: string
    var profileServerToken: string
    var lpsThrottledLocation: bool
    var lpsUpToDate: bool
    var lpsServers: map<string, seq<LpsServer>>
    /** The current profile at every publishZedAgentStatus. */
    var published: seq<string>
    var notices: seq<Notice>
    const checkpoint: Checkpoint
    const lpsTrigger: NotifyChannel

    ghost predicate Valid()
      reads this, lpsTrigger
    {
      lpsTrigger.pending <= lpsTrigger.capacity
    }

    constructor (checkpoint: Checkpoint, trigger: NotifyChannel)
      requires trigger.pending <= trigger.capacity
      ensures Valid() && this.checkpoint == checkpoint && lpsTrigger == trigger
      ensures globalProfile == "" && currentProfile == "" && lps == ""
      ensures profileServerToken == "" && !lpsThrottledLocation && !lpsUpToDate && lpsServers == map[]
      ensures published == [] && notices == []
    {
      this.checkpoint := checkpoint;
      lpsTrigger := trigger;
      globalProfile, currentProfile, lps, profileServerToken := "", "", "", "";
      lpsThrottledLocation, lpsUpToDate, lpsServers := false, false, map[];
      published, notices := [], [];
    }

    /** determineCurrentProfile: ctx.lps when it is non-empty, else the global profile. */
    function DetermineCurrentProfile(): (p: string)
      reads this
      ensures lps != "" ==> p == lps
      ensures lps == "" ==> p == globalProfile
      ensures p == "" <==> lps == "" && globalProfile == ""
    {
      if lps == "" then globalProfile else lps
    }

    /** The state parseProfile leaves behind for config. */
    predicate Applied(config: EdgeDevConfig)
      reads this
    {
      globalProfile == config.globalProfile && profileServerToken == config.profileServerToken
      && lps == config.localProfileServer && currentProfile == DetermineCurrentProfile()
    }

    /** triggerGetLPS: a notification on lpsTrigger that never blocks; dropped when the channel is full. */
    method TriggerGetLPS()
      requires Valid()
      modifies lpsTrigger
      ensures Valid()
      ensures old(lpsTrigger.pending) < lpsTrigger.capacity ==> lpsTrigger.pending == old(lpsTrigger.pending) + 1
      ensures old(lpsTrigger.pending) == lpsTrigger.capacity ==> lpsTrigger.pending == old(lpsTrigger.pending)
    {
      lpsTrigger.TrySend();
    }

    /**
     * saveOrTouchReceivedLPS: a touch only when ctx.lps equals the received
     * profile name, the token matches and the file exists; otherwise a save.
     */
    method SaveOrTouchReceivedLPS(p: LocalProfile, marshal: Marshaller)
      modifies checkpoint
      ensures checkpoint.ops == old(checkpoint.ops) + SaveOrTouchOps(lps, profileServerToken, old(checkpoint.present), p, marshal)
      ensures checkpoint.present
              == ExistsAfter(old(checkpoint.present), SaveOrTouchOps(lps, profileServerToken, old(checkpoint.present), p, marshal))
    {
      if lps == p.localProfile && profileServerToken == p.serverToken && checkpoint.present {
        checkpoint.Record(Touch);
        return;
      }
      match marshal(p) {
        case None =>
        case Some(contents) => checkpoint.Record(Save(contents));
      }
    }

    /**
     * getLPS, with ctx.lps as both the server address and the last known
     * profile. The checkpoint is never cleaned: the clean is guarded by
     * ctx.lps != "" right after ctx.lps was found empty.
     */
    method GetLPS(skipFetch: bool, env: Environment) returns (lp: string, ghost fetched: Option<LocalProfile>)
      modifies checkpoint
      ensures lp == GetLPSResult(lps, lps, skipFetch, fetched)
      ensures fetched.Some? <==> lps != "" && !skipFetch && MakeLPSBaseURL(lps).Ok?
                                 && FetchSucceeds(lpsUpToDate, lpsServers, profileServerToken, env)
      ensures fetched.Some? ==> fetched.value.serverToken == profileServerToken
                                && Offered(lpsServers, profileServerToken, env.send, fetched.value)
      ensures checkpoint.ops == old(checkpoint.ops)
                                + GetLPSActions(lps, lps, profileServerToken, old(checkpoint.present), fetched, env.marshal)
      ensures Clean !in checkpoint.ops[|old(checkpoint.ops)|..]
      ensures checkpoint.present
              == ExistsAfter(old(checkpoint.present),
                             GetLPSActions(lps, lps, profileServerToken, old(checkpoint.present), fetched, env.marshal))
    {
      fetched := None;
      var server := lps;
      if server == "" {
        if lps != "" {
          // cleanSavedConfig in the source; this test cannot succeed
          assert false;
        }
        return "", fetched;
      }
      if skipFetch {
        return lps, fetched;
      }
      var lpsURL := MakeLPSBaseURL(server);
      if lpsURL.Err? {
        return "", fetched;
      }
      var config := FetchProfile(lpsURL.value, lpsUpToDate, lpsServers, profileServerToken, env);
      fetched := config;
      if config.None? {
        return lps, fetched;
      }
      lp := config.value.localProfile;
      SaveOrTouchReceivedLPS(config.value, env.marshal);
    }

    /**
     * profileStateMachine: ctx.lps becomes getLPS's answer, the current
     * profile is derived again, and the status is published exactly when the
     * current profile changed.
     */
    method ProfileStateMachine(skipFetch: bool, env: Environment) returns (ghost fetched: Option<LocalProfile>)
      modifies this, checkpoint
      ensures lps == GetLPSResult(old(lps), old(lps), skipFetch, fetched)
      ensures fetched.Some? <==> old(lps) != "" && !skipFetch && MakeLPSBaseURL(old(lps)).Ok?
                                 && FetchSucceeds(old(lpsUpToDate), old(lpsServers), old(profileServerToken), env)
      ensures fetched.Some? ==> Offered(old(lpsServers), old(profileServerToken), env.send, fetched.value)
      ensures checkpoint.ops == old(checkpoint.ops)
                                + GetLPSActions(old(lps), old(lps), old(profileServerToken),
                                                old(checkpoint.present), fetched, env.marshal)
      ensures currentProfile == DetermineCurrentProfile()
      ensures published == old(published) + (if currentProfile != old(currentProfile) then [currentProfile] else [])
      ensures globalProfile == old(globalProfile) && profileServerToken == old(profileServerToken)
      ensures lpsThrottledLocation == old(lpsThrottledLocation) && lpsUpToDate == old(lpsUpToDate)
      ensures lpsServers == old(lpsServers) && notices == old(notices)
      ensures skipFetch && old(currentProfile == DetermineCurrentProfile()) ==>
                lps == old(lps) && currentProfile == old(currentProfile)
                && published == old(published) && checkpoint.ops == old(checkpoint.ops)
      ensures checkpoint.present == ExistsAfter(old(checkpoint.present), checkpoint.ops[|old(checkpoint.ops)|..])
    {
      var lp;
      lp, fetched := GetLPS(skipFetch, env);
      Adopt(lp);
    }

    /** The second half of profileStateMachine: store getLPS's answer, derive the current profile, publish on a change. */
    method Adopt(lp: string)
      modifies this
      ensures lps == lp
      ensures currentProfile == DetermineCurrentProfile()
      ensures published == old(published) + (if currentProfile != old(currentProfile) then [currentProfile] else [])
      ensures globalProfile == old(globalProfile) && profileServerToken == old(profileServerToken)
      ensures lpsThrottledLocation == old(lpsThrottledLocation) && lpsUpToDate == old(lpsUpToDate)
      ensures lpsServers == old(lpsServers) && notices == old(notices)
    {
      if lps != lp {
        lps := lp;
      }
      var current := DetermineCurrentProfile();
      if currentProfile != current {
        currentProfile := current;
        published := published + [currentProfile];
      }
    }

    /**
     * parseProfile: as in the first variant; the state machine runs without
     * fetching, which leaves ctx.lps at the configured address.
     */
    method ParseProfile(config: EdgeDevConfig)
      requires Valid()
      modifies this, checkpoint, lpsTrigger
      ensures Valid()
      ensures globalProfile == config.globalProfile && profileServerToken == config.profileServerToken
      ensures lps == config.localProfileServer
      ensures old(lps) != config.localProfileServer ==>
                notices == old(notices) + ServerChangeNotices && !lpsThrottledLocation
                && lpsTrigger.pending
                   == (if old(lpsTrigger.pending) < lpsTrigger.capacity then old(lpsTrigger.pending) + 1
                       else old(lpsTrigger.pending))
      ensures old(lps) == config.localProfileServer ==>
                notices == old(notices) && lpsThrottledLocation == old(lpsThrottledLocation)
                && lpsTrigger.pending == old(lpsTrigger.pending)
      ensures checkpoint.ops == old(checkpoint.ops)
      ensures currentProfile == DetermineCurrentProfile()
      ensures published == old(published) + (if currentProfile != old(currentProfile) then [currentProfile] else [])
      ensures lpsUpToDate == old(lpsUpToDate) && lpsServers == old(lpsServers)
      ensures Applied(config)
      ensures old(Applied(config)) ==>
                published == old(published) && notices == old(notices)
                && lpsTrigger.pending == old(lpsTrigger.pending) && currentProfile == old(currentProfile)
                && lpsThrottledLocation == old(lpsThrottledLocation)
      ensures checkpoint.present == ExistsAfter(old(checkpoint.present), checkpoint.ops[|old(checkpoint.ops)|..])
    {
      if globalProfile != config.globalProfile {
        globalProfile := config.globalProfile;
      }
      profileServerToken := config.profileServerToken;
      if lps != config.localProfileServer {
        lps := config.localProfileServer;
        TriggerGetLPS();
        notices := notices + ServerChangeNotices;
        lpsThrottledLocation := false;
      }
      ghost var fetched := ProfileStateMachine(true, Offline);
    }
  }

  /** A configured server address becomes the current profile. */
  method ServerAddressBecomesCurrentProfile(global: string, server: string, token: string) returns (ctx: LpsContext)
    requires server != ""
    ensures ctx.lps == server && ctx.globalProfile == global && ctx.currentProfile == server
  {
    var cp := new Checkpoint(false);
    var trigger := new NotifyChannel(1);
    ctx := new LpsContext(cp, trigger);
    ctx.ParseProfile(EdgeDevConfig(global, server, token));
  }

  /**
   * A profile fetched from the server replaces the server address: the next
   * fetch goes to a server named after the profile.
   */
  method FetchedProfileReplacesServerAddress(server: string, profile: string, token: string) returns (ctx: LpsContext)
    requires PlainHost(server) && server != "" && profile != ""
    ensures ctx.lps == profile && ctx.currentProfile == profile
    ensures PlainHost(profile) ==> MakeLPSBaseURL(ctx.lps) == Ok("http://" + profile + ":" + DefaultLPSPort)
  {
    var cp := new Checkpoint(false);
    var trigger := new NotifyChannel(1);
    ctx := new LpsContext(cp, trigger);
    ctx.ParseProfile(EdgeDevConfig("", server, token));
    ctx.lpsServers := OneServer();
    ctx.lpsUpToDate := true;
    ghost var fetched := ctx.ProfileStateMachine(false, AnswerWith(LocalProfile(profile, token)));
    AnswerWithResult(server, server, true, OneServer(), "bn1", LocalProfile(profile, token), fetched);
    if PlainHost(profile) {
      PlainHostGetsDefaultPort(profile);
    }
  }
}
