/**
 * zedagent's profile state (handleProfile.go): the global profile from the
 * controller, the local profile server (LPS) address, the local profile last
 * received from that server, and the current profile derived from them.
 * Publishing the agent status is recorded as the current profile at that
 * moment; the notifications parseProfile sends to other parts of zedagent are
 * recorded in order.
 */
module Profile {
  import opened Wrappers
  import opened Text
  import opened LpsClient

  /** The part of getconfigContext the profile code uses. */
  class ProfileContext {
    var globalProfile: string
    var localProfile: string
    var currentProfile: string
    var lps: string
    var profileServerToken: string
    var lpsThrottledLocation: bool
    /** lpsMap.upToDate and lpsMap.servers (bridge name to its servers). */
    var lpsUpToDate: bool
    var lpsServers: map<string, seq<LpsServer>>
    /** The current profile at every publishZedAgentStatus. */
    var published: seq<string>
    var notices: seq<Notice>
    const checkpoint: Checkpoint
    const localProfileTrigger: NotifyChannel

    ghost predicate Valid()
      reads this, localProfileTrigger
    {
      localProfileTrigger.pending <= localProfileTrigger.capacity
    }

    constructor (checkpoint: Checkpoint, trigger: NotifyChannel)
      requires trigger.pending <= trigger.capacity
      ensures Valid() && this.checkpoint == checkpoint && localProfileTrigger == trigger
      ensures globalProfile == "" && localProfile == "" && currentProfile == "" && lps == ""
      ensures profileServerToken == "" && !lpsThrottledLocation && !lpsUpToDate && lpsServers == map[]
      ensures published == [] && notices == []
    {
      this.checkpoint := checkpoint;
      localProfileTrigger := trigger;
      globalProfile, localProfile, currentProfile, lps, profileServerToken := "", "", "", "", "";
      lpsThrottledLocation, lpsUpToDate, lpsServers := false, false, map[];
      published, notices := [], [];
    }

    /** determineCurrentProfile: the local profile when there is one, else the global one. */
    function DetermineCurrentProfile(): (p: string)
      reads this
      ensures localProfile != "" ==> p == localProfile
      ensures localProfile == "" ==> p == globalProfile
      ensures p == "" <==> localProfile == "" && globalProfile == ""
    {
      if localProfile == "" then globalProfile else localProfile
    }

    /** The state parseProfile leaves behind for config. */
    predicate Applied(config: EdgeDevConfig)
      reads this
    {
      globalProfile == config.globalProfile && profileServerToken == config.profileServerToken
      && lps == config.localProfileServer && (lps == "" ==> localProfile == "")
      && currentProfile == DetermineCurrentProfile()
    }

    /** triggerGetLPS: a notification to the fetch task that never blocks; dropped when one is pending. */
    method TriggerGetLPS()
      requires Valid()
      modifies localProfileTrigger
      ensures Valid()
      ensures old(localProfileTrigger.pending) < localProfileTrigger.capacity ==>
                localProfileTrigger.pending == old(localProfileTrigger.pending) + 1
      ensures old(localProfileTrigger.pending) == localProfileTrigger.capacity ==>
                localProfileTrigger.pending == old(localProfileTrigger.pending)
    {
      localProfileTrigger.TrySend();
    }

    /**
     * saveOrTouchReceivedLPS: only the modification time changes when the
     * received profile and token are the ones known and the file exists;
     * otherwise the marshalled profile is saved.
     */
    method SaveOrTouchReceivedLPS(p: LocalProfile, marshal: Marshaller)
      modifies checkpoint
      ensures checkpoint.ops == old(checkpoint.ops)
                                + SaveOrTouchOps(localProfile, profileServerToken, old(checkpoint.present), p, marshal)
      ensures checkpoint.present
              == ExistsAfter(old(checkpoint.present),
                             SaveOrTouchOps(localProfile, profileServerToken, old(checkpoint.present), p, marshal))
    {
      if localProfile == p.localProfile && profileServerToken == p.serverToken && checkpoint.present {
        checkpoint.Record(Touch);
        return;
      }
      match marshal(p) {
        case None =>
        case Some(contents) => checkpoint.Record(Save(contents));
      }
    }

    /**
     * getLPS. `fetched` is what getLPSConfig returned, when it was called
     * and succeeded.
     */
    method GetLPS(skipFetch: bool, env: Environment) returns (lp: string, ghost fetched: Option<LocalProfile>)
      modifies checkpoint
      ensures lp == GetLPSResult(lps, localProfile, skipFetch, fetched)
      ensures fetched.Some? <==> lps != "" && !skipFetch && MakeLPSBaseURL(lps).Ok?
                                 && FetchSucceeds(lpsUpToDate, lpsServers, profileServerToken, env)
      ensures fetched.Some? ==> fetched.value.serverToken == profileServerToken
                                && Offered(lpsServers, profileServerToken, env.send, fetched.value)
      ensures checkpoint.ops == old(checkpoint.ops)
                                + GetLPSActions(lps, localProfile, profileServerToken, old(checkpoint.present),
                                                fetched, env.marshal)
      ensures checkpoint.present
              == ExistsAfter(old(checkpoint.present),
                             GetLPSActions(lps, localProfile, profileServerToken, old(checkpoint.present),
                                           fetched, env.marshal))
    {
      fetched := None;
      if lps == "" {
        if localProfile != "" {
          checkpoint.Record(Clean);
        }
        return "", fetched;
      }
      if skipFetch {
        return localProfile, fetched;
      }
      var lpsURL := MakeLPSBaseURL(lps);
      if lpsURL.Err? {
        return "", fetched;
      }
      var config := FetchProfile(lpsURL.value, lpsUpToDate, lpsServers, profileServerToken, env);
      fetched := config;
      if config.None? {
        return localProfile, fetched;
      }
      lp := config.value.localProfile;
      SaveOrTouchReceivedLPS(config.value, env.marshal);
    }

    /**
     * profileStateMachine: the local profile becomes getLPS's answer, the
     * current profile is derived again, and the status is published exactly
     * when the current profile changed.
     */
    method ProfileStateMachine(skipFetch: bool, env: Environment) returns (ghost fetched: Option<LocalProfile>)
      modifies this, checkpoint
      ensures localProfile == GetLPSResult(old(lps), old(localProfile), skipFetch, fetched)
      ensures fetched.Some? <==> old(lps) != "" && !skipFetch && MakeLPSBaseURL(old(lps)).Ok?
                                 && FetchSucceeds(old(lpsUpToDate), old(lpsServers), old(profileServerToken), env)
      ensures fetched.Some? ==> Offered(old(lpsServers), old(profileServerToken), env.send, fetched.value)
      ensures checkpoint.ops == old(checkpoint.ops)
                                + GetLPSActions(old(lps), old(localProfile), old(profileServerToken),
                                                old(checkpoint.present), fetched, env.marshal)
      ensures currentProfile == DetermineCurrentProfile()
      ensures published == old(published) + (if currentProfile != old(currentProfile) then [currentProfile] else [])
      ensures globalProfile == old(globalProfile) && lps == old(lps) && profileServerToken == old(profileServerToken)
      ensures lpsThrottledLocation == old(lpsThrottledLocation) && lpsUpToDate == old(lpsUpToDate)
      ensures lpsServers == old(lpsServers) && notices == old(notices)
      ensures checkpoint.present == ExistsAfter(old(checkpoint.present), checkpoint.ops[|old(checkpoint.ops)|..])
    {
      var lp;
      lp, fetched := GetLPS(skipFetch, env);
      Adopt(lp);
    }

    /** The second half of profileStateMachine: store getLPS's answer, derive the current profile, publish on a change. */
    method Adopt(lp: string)
      modifies this
      ensures localProfile == lp
      ensures currentProfile == DetermineCurrentProfile()
      ensures published == old(published) + (if currentProfile != old(currentProfile) then [currentProfile] else [])
      ensures globalProfile == old(globalProfile) && lps == old(lps) && profileServerToken == old(profileServerToken)
      ensures lpsThrottledLocation == old(lpsThrottledLocation) && lpsUpToDate == old(lpsUpToDate)
      ensures lpsServers == old(lpsServers) && notices == old(notices)
    {
      if localProfile != lp {
        localProfile := lp;
      }
      var current := DetermineCurrentProfile();
      if currentProfile != current {
        currentProfile := current;
        published := published + [currentProfile];
      }
    }

    /**
     * parseProfile: the global profile and the token come from the
     * configuration; a new server address triggers a fetch and the local
     * posts and resets the throttled location; then the state machine runs
     * without fetching, so no server is asked (no environment is given).
     */
    method ParseProfile(config: EdgeDevConfig)
      requires Valid()
      modifies this, checkpoint, localProfileTrigger
      ensures Valid()
      ensures globalProfile == config.globalProfile && profileServerToken == config.profileServerToken
      ensures lps == config.localProfileServer
      ensures old(lps) != config.localProfileServer ==>
                notices == old(notices) + ServerChangeNotices && !lpsThrottledLocation
                && localProfileTrigger.pending
                   == (if old(localProfileTrigger.pending) < localProfileTrigger.capacity
                       then old(localProfileTrigger.pending) + 1 else old(localProfileTrigger.pending))
      ensures old(lps) == config.localProfileServer ==>
                notices == old(notices) && lpsThrottledLocation == old(lpsThrottledLocation)
                && localProfileTrigger.pending == old(localProfileTrigger.pending)
      ensures localProfile == if config.localProfileServer == "" then "" else old(localProfile)
      ensures checkpoint.ops == old(checkpoint.ops)
                                + (if config.localProfileServer == "" && old(localProfile) != "" then [Clean] else [])
      ensures currentProfile == DetermineCurrentProfile()
      ensures published == old(published) + (if currentProfile != old(currentProfile) then [currentProfile] else [])
      ensures lpsUpToDate == old(lpsUpToDate) && lpsServers == old(lpsServers)
      ensures Applied(config)
      ensures old(Applied(config)) ==>
                published == old(published) && notices == old(notices) && checkpoint.ops == old(checkpoint.ops)
                && localProfileTrigger.pending == old(localProfileTrigger.pending)
                && localProfile == old(localProfile) && currentProfile == old(currentProfile)
                && lpsThrottledLocation == old(lpsThrottledLocation)
      ensures checkpoint.present == ExistsAfter(old(checkpoint.present), checkpoint.ops[|old(checkpoint.ops)|..])
    {
      if globalProfile != config.globalProfile {
        globalProfile := config.globalProfile;
      }
      profileServerToken := config.profileServerToken;
      if lps != config.localProfileServer {
        lps := config.localProfileServer;
        TriggerGetLPS();
        notices := notices + ServerChangeNotices;
        lpsThrottledLocation := false;
      }
      ghost var fetched := ProfileStateMachine(true, Offline);
    }
  }

  /**
   * A freshly configured server address leaves the current profile at the
   * global one until a profile is fetched from that server.
   */
  method ServerAddressIsNotAProfile(global: string, server: string, token: string) returns (ctx: ProfileContext)
    ensures ctx.lps == server && ctx.localProfile == "" && ctx.currentProfile == global
  {
    var cp := new Checkpoint(false);
    var trigger := new NotifyChannel(1);
    ctx := new ProfileContext(cp, trigger);
    ctx.ParseProfile(EdgeDevConfig(global, server, token));
  }

  /**
   * A fetched profile becomes the local and the current profile, and the
   * server address stays where it was.
   */
  method FetchedProfileKeepsServerAddress(server: string, profile: string, token: string) returns (ctx: ProfileContext)
    requires PlainHost(server) && server != "" && profile != ""
    ensures ctx.lps == server && ctx.localProfile == profile && ctx.currentProfile == profile
  {
    var cp := new Checkpoint(false);
    var trigger := new NotifyChannel(1);
    ctx := new ProfileContext(cp, trigger);
    ctx.ParseProfile(EdgeDevConfig("", server, token));
    ctx.lpsServers := OneServer();
    ctx.lpsUpToDate := true;
    ghost var fetched := ctx.ProfileStateMachine(false, AnswerWith(LocalProfile(profile, token)));
    AnswerWithResult(server, "", true, OneServer(), "bn1", LocalProfile(profile, token), fetched);
  }
}
