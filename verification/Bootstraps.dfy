/** The manager's bootstrap, session and closed-token tables. */
module Bootstraps {
  import opened Octets
  import opened Outcomes
  import opened Frames
  import opened Rates
  import opened PairedRates
  import opened Tallies

  datatype Error = ErrAuthentication | ErrLimit | ErrProtocol | ErrClosed

  /** A bootstrap; `body` stands for its digest and `token` names the session it made. */
  datatype Bootstrap = Bootstrap(expires: real, profile: string, issuanceIP: string, body: Bytes, token: nat,
                                 used: bool)

  datatype Live = Live(clientIP: string, profile: string)

  datatype Settings = Settings(
    maxBootstrapsGlobal: int, maxBootstrapsPerIP: int,
    maxSessionsGlobal: int, maxSessionsPerIP: int, maxSessionsOf: string -> int,
    lifetime: real, bootstrapQuota: Quota, sessionQuotas: Quotas)

  ghost predicate GoodSettings(g: Settings) {
    && g.maxBootstrapsGlobal > 0 && g.maxBootstrapsPerIP >= 0
    && g.maxSessionsGlobal > 0 && g.maxSessionsPerIP >= 0
    && forall p :: g.maxSessionsOf(p) >= 0
  }

  /** A per-address limit, where zero means none. */
  function PerAddress(limit: int): string -> int {
    ip => limit
  }

  /** A bootstrap as IssueBootstrap makes it. */
  function Issued(profile: string, ip: string, expires: real): (b: Bootstrap)
    ensures !b.used && b.issuanceIP == ip && b.profile == profile && b.expires == expires
  {
    Bootstrap(expires, profile, ip, [], 0, false)
  }

  function UnusedFrom(bs: map<nat, Bootstrap>): string -> set<nat> {
    ip => set h | h in bs && !bs[h].used && bs[h].issuanceIP == ip
  }

  function SessionsFrom(ss: map<nat, Live>): string -> set<nat> {
    ip => set t | t in ss && ss[t].clientIP == ip
  }

  function SessionsOf(ss: map<nat, Live>): string -> set<nat> {
    p => set t | t in ss && ss[t].profile == p
  }

  /** A used bootstrap still in the table has its session in the table, and is the only one with it. */
  ghost predicate Linked(bs: map<nat, Bootstrap>, live: set<nat>, made: map<nat, nat>) {
    && (forall h | h in bs :: bs[h].used <==> h in made)
    && (forall h | h in bs && bs[h].used :: bs[h].token == made[h] && bs[h].token in live)
    && (forall h, k | h in made && k in made && made[h] == made[k] :: h == k)
  }

  class Tables {
    const settings: Settings
    var bootstraps: map<nat, Bootstrap>
    var bootstrapsPerIP: map<string, int>
    var sessions: map<nat, Live>
    var sessionsPerIP: map<string, int>
    var sessionsPerProfile: map<string, int>
    var closedTokens: map<nat, real>
    var closed: bool
    const bootstrapRate: Bucket
    const sessionRate: PairedBucket

    // Every token ever drawn, and which session each bootstrap has made, over the manager's life.
    ghost var drawn: set<nat>
    ghost var made: map<nat, nat>

    /** The counters are exact, the pools within their caps, and no bootstrap has made two sessions. */
    ghost predicate Valid()
      reads this
    {
      Tabled(sessions.Keys)
    }

    /** The same, when used bootstraps may name any of the sessions in `live`. */
    ghost predicate Tabled(live: set<nat>)
      reads this
    {
      && GoodSettings(settings)
      && Tallied(bootstrapsPerIP, UnusedFrom(bootstraps))
      && Tallied(sessionsPerIP, SessionsFrom(sessions))
      && Tallied(sessionsPerProfile, SessionsOf(sessions))
      && (settings.maxBootstrapsPerIP != 0 ==> Within(bootstrapsPerIP, PerAddress(settings.maxBootstrapsPerIP)))
      && (settings.maxSessionsPerIP != 0 ==> Within(sessionsPerIP, PerAddress(settings.maxSessionsPerIP)))
      && Within(sessionsPerProfile, settings.maxSessionsOf)
      && |bootstraps| <= settings.maxBootstrapsGlobal
      && |sessions| <= settings.maxSessionsGlobal
      && |closedTokens| <= settings.maxSessionsGlobal * 16
      && Linked(bootstraps, live, made)
      && Covers(drawn, bootstraps, sessions, made)
    }

    constructor (settings: Settings)
      requires GoodSettings(settings)
      ensures Valid() && this.settings == settings && made == map[] && drawn == {}
      ensures bootstraps == map[] && sessions == map[] && closedTokens == map[]
    {
      this.settings := settings;
      bootstraps, bootstrapsPerIP := map[], map[];
      sessions, sessionsPerIP, sessionsPerProfile := map[], map[], map[];
      closedTokens, closed := map[], false;
      bootstrapRate := new Bucket();
      sessionRate := new PairedBucket();
      drawn, made := {}, map[];
    }

    /** Shutdown's refusal of further bootstraps and sessions. */
    method Shutdown()
      requires Valid()
      modifies this`closed
      ensures Valid() && closed
    {
      closed := true;
    }

    /** removeBootstrapLocked with releaseUnusedBootstrapLocked. */
    method RemoveBootstrap(hash: nat, ghost live: set<nat>)
      requires Tabled(live) && hash in bootstraps
      modifies this`bootstraps, this`bootstrapsPerIP
      ensures Tabled(live) && bootstraps == old(bootstraps) - {hash} && |bootstraps| == |old(bootstraps)| - 1
    {
      hide Tallied, Linked, UnusedFrom, SessionsFrom, SessionsOf, Lowered, Entry, Within;
      var entry := bootstraps[hash];
      RemovalTallies(bootstraps, bootstrapsPerIP, hash);
      RemovalLinked(bootstraps, live, made, hash);
      if !entry.used {
        if settings.maxBootstrapsPerIP != 0 {
          LowerWithin(bootstrapsPerIP, entry.issuanceIP, PerAddress(settings.maxBootstrapsPerIP));
        }
        ReleaseUnused(entry.issuanceIP);
      }
      bootstraps := bootstraps - {hash};
    }

    /** releaseUnusedBootstrapLocked for an entry not yet used. */
    method ReleaseUnused(ip: string)
      requires Entry(bootstrapsPerIP, ip) > 0
      modifies this`bootstrapsPerIP
      ensures bootstrapsPerIP == Lowered(old(bootstrapsPerIP), ip)
    {
      bootstrapsPerIP := bootstrapsPerIP[ip := bootstrapsPerIP[ip] - 1];
      if bootstrapsPerIP[ip] <= 0 {
        bootstrapsPerIP := bootstrapsPerIP - {ip};
        assert bootstrapsPerIP == old(bootstrapsPerIP) - {ip};
      }
    }

    /** removeExpiredBootstrapsLocked. */
    method RemoveExpired(now: real)
      requires Valid()
      modifies this`bootstraps, this`bootstrapsPerIP, this`closedTokens
      ensures Valid()
      ensures bootstraps == Kept(old(bootstraps), now) && bootstraps.Keys <= old(bootstraps).Keys
      ensures closedTokens == map h | h in old(closedTokens) && !(now > old(closedTokens)[h]) :: old(closedTokens)[h]
    {
      hide Tallied, Linked, Within;
      RemoveExpiredBootstraps(now);
      closedTokens := Unexpired(closedTokens, now);
    }

    method RemoveExpiredBootstraps(now: real)
      requires Valid()
      modifies this`bootstraps, this`bootstrapsPerIP
      ensures Valid()
      ensures bootstraps == Kept(old(bootstraps), now) && bootstraps.Keys <= old(bootstraps).Keys
    {
      hide Tallied, Linked, Within;
      ghost var before := bootstraps;
      var todo: set<nat> := bootstraps.Keys;
      while todo != {}
        invariant Valid() && todo <= bootstraps.Keys <= before.Keys
        invariant forall h | h in bootstraps :: bootstraps[h] == before[h]
        invariant forall h | h in before :: h in bootstraps <==> h in todo || !(now > before[h].expires)
        decreases |todo|
      {
        var hash :| hash in todo;
        if now > bootstraps[hash].expires {
          RemoveBootstrap(hash, sessions.Keys);
        }
        todo := todo - {hash};
      }
    }

    /** evictOldestUnusedBootstrapLocked. */
    method EvictOldestUnused() returns (ok: bool)
      requires Valid()
      modifies this`bootstraps, this`bootstrapsPerIP
      ensures Valid()
      ensures ok <==> exists h :: h in old(bootstraps) && !old(bootstraps)[h].used
      ensures !ok ==> bootstraps == old(bootstraps)
      ensures ok ==> EvictedOldest(old(bootstraps), bootstraps) && |bootstraps| < |old(bootstraps)|
      ensures bootstraps.Keys <= old(bootstraps).Keys
    {
      hide Tallied, Linked, Within;
      var oldest: Option<nat> := None;
      var todo: set<nat> := bootstraps.Keys;
      while todo != {}
        invariant todo <= bootstraps.Keys
        invariant oldest.None? ==> forall h | h in bootstraps && h !in todo :: bootstraps[h].used
        invariant oldest.Some? ==>
          && oldest.value in bootstraps && !bootstraps[oldest.value].used
          && forall h | h in bootstraps && h !in todo && !bootstraps[h].used ::
               bootstraps[oldest.value].expires <= bootstraps[h].expires
        decreases |todo|
      {
        var hash :| hash in todo;
        todo := todo - {hash};
        if bootstraps[hash].used || (oldest.Some? && !(bootstraps[hash].expires < bootstraps[oldest.value].expires)) {
          continue;
        }
        oldest := Some(hash);
      }
      if oldest.None? {
        return false;
      }
      assert IsOldestUnused(bootstraps, oldest.value);
      RemoveBootstrap(oldest.value, sessions.Keys);
      return true;
    }

    /** IssueBootstrap's entry into the tables. */
    method AddBootstrap(hash: nat, entry: Bootstrap)
      requires Valid() && hash in drawn && hash !in bootstraps && hash !in made && !entry.used
      requires |bootstraps| < settings.maxBootstrapsGlobal
      requires settings.maxBootstrapsPerIP != 0 ==>
        Entry(bootstrapsPerIP, entry.issuanceIP) < settings.maxBootstrapsPerIP
      modifies this`bootstraps, this`bootstrapsPerIP
      ensures Valid() && bootstraps == old(bootstraps)[hash := entry]
    {
      hide Tallied, Linked, Within, UnusedFrom, SessionsFrom, SessionsOf, Entry, Raised, Covers;
      AdditionTallies(bootstraps, bootstrapsPerIP, hash, entry);
      AdditionLinked(bootstraps, sessions.Keys, made, hash, entry);
      AdditionCovers(drawn, bootstraps, sessions, made, hash, entry);
      if settings.maxBootstrapsPerIP != 0 {
        RaiseWithin(bootstrapsPerIP, entry.issuanceIP, PerAddress(settings.maxBootstrapsPerIP));
      }
      bootstraps := bootstraps[hash := entry];
      bootstrapsPerIP := Raised(bootstrapsPerIP, entry.issuanceIP);
    }

    /** IssueBootstrap's eviction when the pool is full. */
    method MakeRoom() returns (ok: bool)
      requires Valid()
      modifies this`bootstraps, this`bootstrapsPerIP
      ensures Valid()
      ensures ok <==>
        || |old(bootstraps)| < settings.maxBootstrapsGlobal
        || exists h :: h in old(bootstraps) && !old(bootstraps)[h].used
      ensures if ok then MadeRoom(old(bootstraps), bootstraps, settings.maxBootstrapsGlobal)
              else bootstraps == old(bootstraps)
      ensures ok ==> |bootstraps| < settings.maxBootstrapsGlobal
      ensures bootstraps.Keys <= old(bootstraps).Keys
    {
      hide Tallied, Linked, Within, EvictedOldest;
      if |bootstraps| < settings.maxBootstrapsGlobal {
        return true;
      }
      ok := EvictOldestUnused();
    }

    /** IssueBootstrap once expired entries are gone. */
    method IssueAmong(profile: string, clientIP: string, now: real, hash: nat) returns (ok: bool)
      requires Valid() && hash in drawn && hash !in bootstraps && hash !in made
      modifies this`bootstraps, this`bootstrapsPerIP, bootstrapRate
      ensures Valid()
      ensures ok <==>
        MayIssue(settings, old(bootstraps), clientIP,
                 TakeRate(old(bootstrapRate.state), now, settings.bootstrapQuota).1)
      ensures !ok ==> bootstraps == old(bootstraps)
      ensures ok ==>
        && hash in bootstraps && bootstraps[hash] == Issued(profile, clientIP, now + settings.lifetime)
        && MadeRoom(old(bootstraps), bootstraps - {hash}, settings.maxBootstrapsGlobal)
    {
      hide Tallied, Linked, Within, UnusedFrom, SessionsFrom, SessionsOf, MadeRoom, TakeRate, Issued, GoodSettings;
      hide PerAddress;
      CountIsTally(bootstrapsPerIP, UnusedFrom(bootstraps), clientIP);
      if settings.maxBootstrapsPerIP != 0 && Entry(bootstrapsPerIP, clientIP) >= settings.maxBootstrapsPerIP {
        return false;
      }
      var allowed := bootstrapRate.Allow(now, settings.bootstrapQuota);
      if !allowed {
        return false;
      }
      ok := MakeRoom();
      if ok {
        MadeRoomKeepsLimit(settings, old(bootstraps), bootstraps, bootstrapsPerIP, clientIP);
        ghost var roomy := bootstraps;
        AddBootstrap(hash, Issued(profile, clientIP, now + settings.lifetime));
        assert bootstraps - {hash} == roomy;
      }
    }

    /** IssueBootstrap; `hash` is the fresh token. */
    method IssueBootstrap(profile: string, clientIP: string, now: real, hash: nat) returns (r: Result<nat, Error>)
      requires Valid() && hash !in drawn
      modifies this`bootstraps, this`bootstrapsPerIP, this`closedTokens, this`drawn, bootstrapRate
      ensures Valid() && drawn == old(drawn) + {hash}
      ensures old(closed) ==> r == Err(ErrClosed) && bootstraps == old(bootstraps)
      ensures !old(closed) ==>
        (r.Ok? <==>
           MayIssue(settings, Kept(old(bootstraps), now), clientIP,
                    TakeRate(old(bootstrapRate.state), now, settings.bootstrapQuota).1))
      ensures !old(closed) && r.Err? ==> r.error == ErrLimit && bootstraps == Kept(old(bootstraps), now)
      ensures r.Ok? ==>
        && r.value == hash && hash in bootstraps
        && bootstraps[hash] == Issued(profile, clientIP, now + settings.lifetime)
        && MadeRoom(Kept(old(bootstraps), now), bootstraps - {hash}, settings.maxBootstrapsGlobal)
    {
      hide Tallied, Linked, Within, MadeRoom, MayIssue, TakeRate, Issued, Kept;
      drawn := drawn + {hash};
      if closed {
        return Err(ErrClosed);
      }
      RemoveExpired(now);
      var issued := IssueAmong(profile, clientIP, now, hash);
      return if issued then Ok(hash) else Err(ErrLimit);
    }

    /** Create's entry into the session table. */
    method EnterSession(t: nat, live: Live)
      requires Valid() && t !in drawn && |sessions| < settings.maxSessionsGlobal
      requires Entry(sessionsPerProfile, live.profile) < settings.maxSessionsOf(live.profile)
      requires settings.maxSessionsPerIP != 0 ==> Entry(sessionsPerIP, live.clientIP) < settings.maxSessionsPerIP
      modifies this`sessions, this`sessionsPerIP, this`sessionsPerProfile, this`drawn
      ensures Valid() && drawn == old(drawn) + {t} && sessions == old(sessions)[t := live]
    {
      hide Tallied, Linked, Within, UnusedFrom, SessionsFrom, SessionsOf, Entry, Raised, GoodSettings, PerAddress;
      hide Covers;
      JoinCovers(drawn, bootstraps, sessions, made, t, live);
      JoinTallies(sessions, sessionsPerIP, sessionsPerProfile, t, live);
      JoinLinked(bootstraps, sessions, made, t, live);
      JoinWithin(settings, sessionsPerIP, sessionsPerProfile, live);
      sessions := sessions[t := live];
      sessionsPerIP := Raised(sessionsPerIP, live.clientIP);
      sessionsPerProfile := Raised(sessionsPerProfile, live.profile);
      drawn := drawn + {t};
    }

    /** Create's change to the bootstrap it was given. */
    method MarkUsed(h: nat, t: nat, body: Bytes)
      requires Valid() && h in bootstraps && !bootstraps[h].used && t in sessions && t !in made.Values
      modifies this`bootstraps, this`bootstrapsPerIP, this`made
      ensures Valid() && made == old(made)[h := t]
      ensures bootstraps == old(bootstraps)[h := old(bootstraps)[h].(used := true, body := body, token := t)]
    {
      hide Tallied, Linked, Within, UnusedFrom, SessionsFrom, SessionsOf, Entry, Lowered, GoodSettings;
      var entry := bootstraps[h];
      var used := entry.(used := true, body := body, token := t);
      UseTallies(bootstraps, bootstrapsPerIP, h, used);
      UseLinked(bootstraps, sessions.Keys, made, h, used, t, drawn);
      if settings.maxBootstrapsPerIP != 0 {
        LowerWithin(bootstrapsPerIP, entry.issuanceIP, PerAddress(settings.maxBootstrapsPerIP));
      }
      ReleaseUnused(entry.issuanceIP);
      bootstraps := bootstraps[h := used];
      made := made[h := t];
    }

    /** Create; `hash` is None for a malformed token, `sessionHash` the fresh session token. */
    method Create(hash: Option<nat>, clientIP: string, body: Bytes, now: real, sessionHash: nat)
      returns (r: Result<nat, Error>)
      requires Valid() && sessionHash !in drawn
      modifies this`bootstraps, this`bootstrapsPerIP, this`sessions, this`sessionsPerIP, this`sessionsPerProfile,
          this`drawn, this`made, sessionRate
      ensures Valid()
      ensures r.Ok? ==>
        && IsHello(body) && hash.Some? && hash.value in made && made[hash.value] == r.value && r.value in sessions
      ensures made == old(made) ==> sessions == old(sessions) && bootstraps == old(bootstraps)
      ensures made != old(made) ==>
        && hash.Some? && hash.value in old(bootstraps) && hash.value !in old(made) && r == Ok(sessionHash)
        && made == old(made)[hash.value := sessionHash]
        && sessions == old(sessions)[sessionHash := Live(clientIP, old(bootstraps)[hash.value].profile)]
      ensures IsHello(body) && old(Current(hash, now)) ==>
        var entry := old(bootstraps)[hash.value];
        if entry.used then
          made == old(made) && r == if entry.body == body then Ok(entry.token) else Err(ErrAuthentication)
        else r == if old(MayCreate(entry.profile, clientIP, now)) then Ok(sessionHash) else Err(ErrLimit)
      ensures !IsHello(body) ==> r == Err(ErrProtocol)
      ensures IsHello(body) && !old(Current(hash, now)) ==> r == Err(ErrAuthentication)
    {
      hide Tallied, Within, UnusedFrom, SessionsFrom, SessionsOf, IsHello, GoodSettings, PerAddress, TakePair;
      if !IsHello(body) {
        return Err(ErrProtocol);
      }
      if hash.None? {
        return Err(ErrAuthentication);
      }
      var h := hash.value;
      if h !in bootstraps || now > bootstraps[h].expires {
        return Err(ErrAuthentication);
      }
      var entry := bootstraps[h];
      if entry.used {
        return if entry.body != body then Err(ErrAuthentication) else Ok(entry.token);
      }
      if closed || |sessions| >= settings.maxSessionsGlobal
         || Entry(sessionsPerProfile, entry.profile) >= settings.maxSessionsOf(entry.profile)
         || (settings.maxSessionsPerIP != 0 && Entry(sessionsPerIP, clientIP) >= settings.maxSessionsPerIP) {
        return Err(ErrLimit);
      }
      var allowed := sessionRate.Allow(now, entry.profile, settings.sessionQuotas);
      if !allowed {
        return Err(ErrLimit);
      }
      EnterSession(sessionHash, Live(clientIP, entry.profile));
      MarkUsed(h, sessionHash, body);
      return Ok(sessionHash);
    }

    /** A token of a bootstrap in the table and not expired. */
    predicate Current(hash: Option<nat>, now: real)
      reads this
    {
      hash.Some? && hash.value in bootstraps && now <= bootstraps[hash.value].expires
    }

    /** Whether Create has room and rate for one more session of this profile from this address. */
    predicate MayCreate(profile: string, clientIP: string, now: real)
      reads this, sessionRate
    {
      && !closed && |sessions| < settings.maxSessionsGlobal
      && Entry(sessionsPerProfile, profile) < settings.maxSessionsOf(profile)
      && (settings.maxSessionsPerIP != 0 ==> Entry(sessionsPerIP, clientIP) < settings.maxSessionsPerIP)
      && TakePair(Pair(sessionRate.global, sessionRate.profiles), Call(now, profile), settings.sessionQuotas).1
    }

    /** sessionFinished: the first loop's match, then the bootstraps that name the session. */
    method SessionFinished(t: nat, now: real)
      requires Valid()
      modifies this`bootstraps, this`bootstrapsPerIP, this`sessions, this`sessionsPerIP, this`sessionsPerProfile,
          this`closedTokens
      ensures Valid() && sessions == old(sessions) - {t}
      ensures bootstraps == NotNaming(old(bootstraps), t)
      ensures t in old(sessions) ==>
        Recorded(old(closedTokens), closedTokens, t, now + settings.lifetime, settings.maxSessionsGlobal * 16)
      ensures t !in old(sessions) ==> closedTokens == old(closedTokens)
    {
      hide Tallied, Linked, Within, NotNaming, Covers, UnusedFrom, SessionsFrom, SessionsOf, GoodSettings, PerAddress;
      hide Recorded;
      ghost var live := sessions.Keys;
      if t in sessions {
        RecordClosed(t, now);
        LeaveSessions(t, live);
      }
      RemoveBootstrapsOf(t, live);
      assert sessions.Keys == live - {t};
      WithoutNames(old(bootstraps), bootstraps, live, made, t);
    }

    method LeaveSessions(t: nat, ghost live: set<nat>)
      requires Tabled(live) && t in sessions
      modifies this`sessions, this`sessionsPerIP, this`sessionsPerProfile
      ensures Tabled(live) && sessions == old(sessions) - {t}
    {
      hide Tallied, Linked, Within, UnusedFrom, SessionsFrom, SessionsOf, Entry, Lowered, GoodSettings, PerAddress;
      hide Covers;
      var gone := sessions[t];
      LeaveTallies(sessions, sessionsPerIP, sessionsPerProfile, t);
      LeaveCovers(drawn, bootstraps, sessions, made, t);
      if settings.maxSessionsPerIP != 0 {
        LowerWithin(sessionsPerIP, gone.clientIP, PerAddress(settings.maxSessionsPerIP));
      }
      LowerWithin(sessionsPerProfile, gone.profile, settings.maxSessionsOf);
      sessions := sessions - {t};
      sessionsPerIP := Lowered(sessionsPerIP, gone.clientIP);
      sessionsPerProfile := Lowered(sessionsPerProfile, gone.profile);
    }

    /** The tombstone of a session token; a full pool gives up its oldest. */
    method RecordClosed(t: nat, now: real)
      requires Valid()
      modifies this`closedTokens
      ensures Valid()
      ensures Recorded(old(closedTokens), closedTokens, t, now + settings.lifetime, settings.maxSessionsGlobal * 16)
    {
      hide Tallied, Linked, Within, Covers;
      if |closedTokens| >= settings.maxSessionsGlobal * 16 {
        closedTokens := WithoutOldest(closedTokens);
      }
      AddShrinks(closedTokens, t, now + settings.lifetime);
      closedTokens := closedTokens[t := now + settings.lifetime];
    }

    method RemoveBootstrapsOf(t: nat, ghost live: set<nat>)
      requires Tabled(live)
      modifies this`bootstraps, this`bootstrapsPerIP
      ensures Tabled(live)
      ensures bootstraps == NotNaming(old(bootstraps), t)
    {
      hide Tallied, Linked, Within, Covers, NamesSession;
      ghost var before := bootstraps;
      var todo: set<nat> := bootstraps.Keys;
      while todo != {}
        invariant Tabled(live) && todo <= bootstraps.Keys <= before.Keys
        invariant forall h | h in bootstraps :: bootstraps[h] == before[h]
        invariant forall h | h in before :: h in bootstraps <==> h in todo || !NamesSession(before[h], t)
        decreases |todo|
      {
        var hash :| hash in todo;
        if NamesSession(bootstraps[hash], t) {
          RemoveBootstrap(hash, live);
        }
        todo := todo - {hash};
      }
    }
  }

  predicate NamesSession(b: Bootstrap, t: nat) {
    b.used && b.token == t
  }

  function NotNaming(bs: map<nat, Bootstrap>, t: nat): map<nat, Bootstrap> {
    map h | h in bs && !NamesSession(bs[h], t) :: bs[h]
  }

  lemma WithoutNames(before: map<nat, Bootstrap>, bs: map<nat, Bootstrap>, live: set<nat>, made: map<nat, nat>, t: nat)
    requires bs == NotNaming(before, t) && Linked(bs, live, made)
    ensures Linked(bs, live - {t}, made)
  {
  }

  lemma LeaveTallies(ss: map<nat, Live>, perIP: map<string, int>, perProfile: map<string, int>, t: nat)
    requires t in ss && Tallied(perIP, SessionsFrom(ss)) && Tallied(perProfile, SessionsOf(ss))
    ensures Entry(perIP, ss[t].clientIP) > 0 && Tallied(Lowered(perIP, ss[t].clientIP), SessionsFrom(ss - {t}))
    ensures Entry(perProfile, ss[t].profile) > 0 && Tallied(Lowered(perProfile, ss[t].profile), SessionsOf(ss - {t}))
    ensures |ss - {t}| <= |ss|
  {
    hide Tallied, Lowered, Entry;
    LowerTally(perIP, SessionsFrom(ss), SessionsFrom(ss - {t}), ss[t].clientIP, t);
    LowerTally(perProfile, SessionsOf(ss), SessionsOf(ss - {t}), ss[t].profile, t);
    FewerLive(ss, t);
  }

  lemma FewerLive(ss: map<nat, Live>, t: nat)
    requires t in ss
    ensures |ss - {t}| == |ss| - 1
  {
    assert (ss - {t}).Keys == ss.Keys - {t};
  }

  lemma LeaveCovers(drawn: set<nat>, bs: map<nat, Bootstrap>, ss: map<nat, Live>, made: map<nat, nat>, t: nat)
    requires Covers(drawn, bs, ss, made)
    ensures Covers(drawn, bs, ss - {t}, made)
  {
  }

  lemma AddShrinks(m: map<nat, real>, k: nat, v: real)
    ensures |m[k := v]| <= |m| + 1 && m[k := v].Keys == m.Keys + {k}
  {
    assert m[k := v].Keys == m.Keys + {k};
  }

  predicate IsOldest(tokens: map<nat, real>, oldest: nat) {
    oldest in tokens && forall k | k in tokens :: tokens[oldest] <= tokens[k]
  }

  /** A closed token's entry with its expiry; a full pool has given up one that none expires before, and no other. */
  ghost predicate Recorded(before: map<nat, real>, after: map<nat, real>, t: nat, expires: real, cap: nat) {
    if |before| < cap then after == before[t := expires]
    else exists oldest: nat :: IsOldest(before, oldest) && after == (before - {oldest})[t := expires]
  }

  /** sessionFinished's search for the closed token that expires first. */
  method WithoutOldest(tokens: map<nat, real>) returns (rest: map<nat, real>)
    requires tokens != map[]
    ensures exists oldest: nat :: IsOldest(tokens, oldest) && rest == tokens - {oldest}
    ensures |rest| < |tokens| && rest.Keys <= tokens.Keys
  {
    var todo: set<nat> := tokens.Keys;
    var oldest: Option<nat> := None;
    while todo != {}
      invariant todo <= tokens.Keys && (oldest.None? ==> todo == tokens.Keys)
      invariant oldest.Some? ==>
        oldest.value in tokens && forall k | k in tokens && k !in todo :: tokens[oldest.value] <= tokens[k]
      decreases |todo|
    {
      var hash :| hash in todo;
      if oldest.None? || tokens[hash] < tokens[oldest.value] {
        oldest := Some(hash);
      }
      todo := todo - {hash};
    }
    DeleteShrinks(tokens, oldest.value);
    rest := tokens - {oldest.value};
  }

  lemma JoinTallies(ss: map<nat, Live>, perIP: map<string, int>, perProfile: map<string, int>, t: nat, live: Live)
    requires t !in ss && Tallied(perIP, SessionsFrom(ss)) && Tallied(perProfile, SessionsOf(ss))
    ensures Tallied(Raised(perIP, live.clientIP), SessionsFrom(ss[t := live]))
    ensures Tallied(Raised(perProfile, live.profile), SessionsOf(ss[t := live]))
    ensures |ss[t := live]| == |ss| + 1
  {
    hide Tallied, Raised;
    RaiseTally(perIP, SessionsFrom(ss), SessionsFrom(ss[t := live]), live.clientIP, t);
    RaiseTally(perProfile, SessionsOf(ss), SessionsOf(ss[t := live]), live.profile, t);
    OneMoreLive(ss, t, live);
  }

  lemma JoinWithin(g: Settings, perIP: map<string, int>, perProfile: map<string, int>, live: Live)
    requires Entry(perProfile, live.profile) < g.maxSessionsOf(live.profile) && Within(perProfile, g.maxSessionsOf)
    requires g.maxSessionsPerIP != 0 ==>
      Entry(perIP, live.clientIP) < g.maxSessionsPerIP && Within(perIP, PerAddress(g.maxSessionsPerIP))
    ensures Within(Raised(perProfile, live.profile), g.maxSessionsOf)
    ensures g.maxSessionsPerIP != 0 ==>
      Within(Raised(perIP, live.clientIP), PerAddress(g.maxSessionsPerIP))
  {
    hide Within, Entry;
    if g.maxSessionsPerIP != 0 {
      RaiseWithin(perIP, live.clientIP, PerAddress(g.maxSessionsPerIP));
    }
    RaiseWithin(perProfile, live.profile, g.maxSessionsOf);
  }

  lemma OneMoreLive(ss: map<nat, Live>, t: nat, live: Live)
    requires t !in ss
    ensures |ss[t := live]| == |ss| + 1
  {
    assert ss[t := live].Keys == ss.Keys + {t};
  }

  lemma UseTallies(bs: map<nat, Bootstrap>, counts: map<string, int>, h: nat, used: Bootstrap)
    requires h in bs && !bs[h].used && used.used && Tallied(counts, UnusedFrom(bs))
    ensures Entry(counts, bs[h].issuanceIP) > 0
    ensures Tallied(Lowered(counts, bs[h].issuanceIP), UnusedFrom(bs[h := used]))
  {
    hide Tallied;
    LowerTally(counts, UnusedFrom(bs), UnusedFrom(bs[h := used]), bs[h].issuanceIP, h);
  }

  lemma JoinLinked(bs: map<nat, Bootstrap>, ss: map<nat, Live>, made: map<nat, nat>, t: nat, live: Live)
    requires Linked(bs, ss.Keys, made)
    ensures Linked(bs, ss[t := live].Keys, made)
  {
  }

  /** `drawn` covers every name in the tables. */
  ghost predicate Covers(drawn: set<nat>, bs: map<nat, Bootstrap>, ss: map<nat, Live>, made: map<nat, nat>) {
    bs.Keys <= drawn && ss.Keys <= drawn && made.Keys <= drawn && made.Values <= drawn
  }

  lemma JoinCovers(drawn: set<nat>, bs: map<nat, Bootstrap>, ss: map<nat, Live>, made: map<nat, nat>, t: nat,
                   live: Live)
    requires Covers(drawn, bs, ss, made)
    ensures Covers(drawn + {t}, bs, ss[t := live], made) && (t !in drawn ==> t !in ss)
  {
  }

  lemma UseLinked(bs: map<nat, Bootstrap>, live: set<nat>, made: map<nat, nat>, h: nat, used: Bootstrap, t: nat,
                  drawn: set<nat>)
    requires Linked(bs, live, made) && h in bs && !bs[h].used && used.used && used.token == t && t in live
    requires made.Values <= drawn && t !in made.Values && t in drawn
    ensures Linked(bs[h := used], live, made[h := t])
    ensures |bs[h := used]| == |bs| && bs[h := used].Keys == bs.Keys
    ensures made[h := t].Values <= drawn && made[h := t].Keys == made.Keys + {h}
  {
    assert bs[h := used].Keys == bs.Keys;
    forall k | k in made
      ensures made[k] != t
    {
      assert made[k] in made.Values;
    }
  }

  /** The pool before and after its eviction. */
  ghost predicate MadeRoom(before: map<nat, Bootstrap>, after: map<nat, Bootstrap>, limit: int) {
    if |before| < limit then after == before else EvictedOldest(before, after)
  }

  ghost predicate EvictedOldest(before: map<nat, Bootstrap>, after: map<nat, Bootstrap>) {
    exists oldest: nat :: IsOldestUnused(before, oldest) && after == before - {oldest}
  }

  ghost predicate MayIssue(g: Settings, kept: map<nat, Bootstrap>, ip: string, rateAllows: bool) {
    && (g.maxBootstrapsPerIP != 0 ==> |UnusedFrom(kept)(ip)| < g.maxBootstrapsPerIP)
    && rateAllows
    && (|kept| < g.maxBootstrapsGlobal || exists h :: h in kept && !kept[h].used)
  }

  /** An eviction frees room under an address's limit, never takes it. */
  lemma MadeRoomKeepsLimit(g: Settings, before: map<nat, Bootstrap>, after: map<nat, Bootstrap>,
                           counts: map<string, int>, ip: string)
    requires MadeRoom(before, after, g.maxBootstrapsGlobal) && Tallied(counts, UnusedFrom(after))
    requires g.maxBootstrapsPerIP != 0 ==> |UnusedFrom(before)(ip)| < g.maxBootstrapsPerIP
    ensures g.maxBootstrapsPerIP != 0 ==> Entry(counts, ip) < g.maxBootstrapsPerIP
  {
    CountIsTally(counts, UnusedFrom(after), ip);
    assert UnusedFrom(after)(ip) <= UnusedFrom(before)(ip);
    SubsetSize(UnusedFrom(after)(ip), UnusedFrom(before)(ip));
  }

  lemma SubsetSize(a: set<nat>, b: set<nat>)
    requires a <= b
    ensures |a| <= |b|
  {
    assert b == a + (b - a);
  }

  function Kept(bs: map<nat, Bootstrap>, now: real): map<nat, Bootstrap> {
    map h | h in bs && !(now > bs[h].expires) :: bs[h]
  }

  lemma CountIsTally(m: map<string, int>, of: string -> set<nat>, p: string)
    requires Tallied(m, of)
    ensures Entry(m, p) == |of(p)|
  {
  }

  ghost predicate IsOldestUnused(bs: map<nat, Bootstrap>, h: nat) {
    && h in bs && !bs[h].used
    && forall k | k in bs && !bs[k].used :: bs[h].expires <= bs[k].expires
  }

  /** The loop over closedTokens. */
  method Unexpired(tokens: map<nat, real>, now: real) returns (kept: map<nat, real>)
    ensures kept == map h | h in tokens && !(now > tokens[h]) :: tokens[h]
    ensures |kept| <= |tokens|
  {
    kept := tokens;
    var todo: set<nat> := tokens.Keys;
    while todo != {}
      invariant todo <= kept.Keys <= tokens.Keys && |kept| <= |tokens|
      invariant forall h | h in kept :: kept[h] == tokens[h]
      invariant forall h | h in tokens :: h in kept <==> h in todo || !(now > tokens[h])
      decreases |todo|
    {
      var hash :| hash in todo;
      if now > tokens[hash] {
        DeleteShrinks(kept, hash);
        kept := kept - {hash};
      }
      todo := todo - {hash};
    }
  }

  lemma DeleteShrinks(m: map<nat, real>, k: nat)
    requires k in m
    ensures |m - {k}| == |m| - 1
  {
    assert (m - {k}).Keys == m.Keys - {k};
  }

  lemma AdditionLinked(bs: map<nat, Bootstrap>, live: set<nat>, made: map<nat, nat>, hash: nat, entry: Bootstrap)
    requires Linked(bs, live, made) && hash !in made && hash !in bs && !entry.used
    ensures Linked(bs[hash := entry], live, made)
    ensures |bs[hash := entry]| == |bs| + 1 && bs[hash := entry].Keys == bs.Keys + {hash}
  {
    assert bs[hash := entry].Keys == bs.Keys + {hash};
  }

  lemma AdditionCovers(drawn: set<nat>, bs: map<nat, Bootstrap>, ss: map<nat, Live>, made: map<nat, nat>, hash: nat,
                       entry: Bootstrap)
    requires Covers(drawn, bs, ss, made) && hash in drawn
    ensures Covers(drawn, bs[hash := entry], ss, made)
  {
  }

  lemma AdditionTallies(bs: map<nat, Bootstrap>, counts: map<string, int>, hash: nat, entry: Bootstrap)
    requires Tallied(counts, UnusedFrom(bs)) && hash !in bs && !entry.used
    ensures Tallied(Raised(counts, entry.issuanceIP), UnusedFrom(bs[hash := entry]))
  {
    hide Tallied;
    RaiseTally(counts, UnusedFrom(bs), UnusedFrom(bs[hash := entry]), entry.issuanceIP, hash);
  }

  lemma RemovalLinked(bs: map<nat, Bootstrap>, live: set<nat>, made: map<nat, nat>, hash: nat)
    requires hash in bs && Linked(bs, live, made)
    ensures Linked(bs - {hash}, live, made)
    ensures |bs - {hash}| == |bs| - 1 && (bs - {hash}).Keys <= bs.Keys
  {
    assert (bs - {hash}).Keys == bs.Keys - {hash};
  }

  lemma RemovalTallies(bs: map<nat, Bootstrap>, counts: map<string, int>, hash: nat)
    requires hash in bs && Tallied(counts, UnusedFrom(bs))
    ensures bs[hash].used ==> Tallied(counts, UnusedFrom(bs - {hash}))
    ensures !bs[hash].used ==>
      && Entry(counts, bs[hash].issuanceIP) > 0
      && Tallied(Lowered(counts, bs[hash].issuanceIP), UnusedFrom(bs - {hash}))
  {
    hide Tallied;
    if bs[hash].used {
      SameTally(counts, UnusedFrom(bs), UnusedFrom(bs - {hash}));
    } else {
      LowerTally(counts, UnusedFrom(bs), UnusedFrom(bs - {hash}), bs[hash].issuanceIP, hash);
    }
  }
}
