/** The public endpoints as values: `CheckRequest` of
    backend/handlers/visitor_session.go and the handlers of
    backend/handlers/behaviour.go, each run as one step over the world. */
module Visits {
  import opened Basics
  import opened Blacklist
  import opened Detection
  import opened Scoring
  import opened Sessions
  import opened Sites

  // ------------------------------------------------------- POST /api/check

  datatype Body = Unreadable | Malformed | Parsed(captchaPassed: bool)

  /** Empty strings stand for missing headers and cookies; an absent or empty
      body parses with `captchaPassed` false. */
  datatype CheckRequest = CheckRequest(
    preflight: bool,
    siteId: string,
    ip: string,
    userAgent: string,
    headerSession: string,
    cookieSession: string,
    body: Body)
  {
    function SessionId(): string {
      if headerSession != "" then headerSession else cookieSession
    }
  }

  datatype Decision = Allow | Challenge | Deny

  datatype CheckAnswer =
    | Preflight
    | SiteIdRequired
    | SiteNotFound
    | SiteNotActive
    | AddressBlocked
    | BadBody
    | ForeignSession
    | Checked(action: Decision, sessionId: string, risk: int)

  function ActionFor(risk: int): Decision {
    if risk >= 80 then Deny else if risk >= 50 then Challenge else Allow
  }

  function NewSession(id: string, req: CheckRequest): Session {
    Session(id, req.siteId, req.ip, req.userAgent, true, 0, false, false, map[], ZERO_TIME, ZERO_TIME, ZERO_TIME)
  }

  /** What is answered before a session is looked at. */
  function Refusal(w: World, req: CheckRequest, now: Time): Option<CheckAnswer> {
    if req.preflight then Some(Preflight)
    else if req.siteId == "" then Some(SiteIdRequired)
    else if req.siteId !in w.sites then Some(SiteNotFound)
    else if w.sites[req.siteId].status != Active then Some(SiteNotActive)
    else if Listed(w.rows, req.siteId, req.ip, now) then Some(AddressBlocked)
    else if !req.body.Parsed? then Some(BadBody)
    else None
  }

  /** The session a request is served under, created when the named one is missing. */
  function Admit(m: Table, req: CheckRequest, freshId: string, now: Time): (r: (Table, string))
    ensures r.1 in r.0
  {
    if req.SessionId() != "" && req.SessionId() in m then (m, req.SessionId())
    else (Create(m, NewSession(freshId, req), now), freshId)
  }

  function Check(w: World, req: CheckRequest, freshId: string, now: Time): (World, CheckAnswer) {
    var refused := Refusal(w, req, now);
    if refused.Some? then (w, refused.value)
    else if req.SessionId() != "" && req.SessionId() in w.sessions
            && w.sessions[req.SessionId()].siteId != req.siteId then
      (w, ForeignSession)
    else
      var (m, id) := Admit(w.sessions, req, freshId, now);
      var refreshed := Refresh(m, id, now);
      if req.body.captchaPassed then (w.(sessions := SetRisk(refreshed, id, 0)), Checked(Allow, id, 0))
      else (w.(sessions := refreshed), Checked(ActionFor(m[id].risk), id, m[id].risk))
  }

  /** Every 200 answer names a stored session of the requested site that lives
      at least thirty minutes more and stores the reported risk; the action is
      the 80/50 step of that risk, and a passed captcha means risk 0 and allow.
      No other session, and nothing else, changes. */
  lemma CheckedMeaning(w: World, req: CheckRequest, freshId: string, now: Time)
    requires freshId !in w.sessions
    ensures var (w', a) := Check(w, req, freshId, now);
            a.Checked? ==>
              && a.sessionId in w'.sessions
              && var s := w'.sessions[a.sessionId];
                 && s.siteId == req.siteId && s.expiresAt >= now + SESSION_TTL && s.risk == a.risk
                 && (a.action == Deny <==> a.risk >= 80)
                 && (a.action == Challenge <==> 50 <= a.risk < 80)
                 && (a.action == Allow <==> a.risk < 50)
                 && (req.body.captchaPassed ==> a.risk == 0 && a.action == Allow)
                 && (a.sessionId == freshId ==>
                       s.ip == req.ip && s.userAgent == req.userAgent && s.isActive && !s.isBlocked && s.risk == 0
                       && !s.captchaShown && s.metrics == map[] && s.createdAt == now)
                 && (a.sessionId != freshId ==>
                       && a.sessionId in w.sessions && a.sessionId == req.SessionId()
                       && (!req.body.captchaPassed ==> a.risk == w.sessions[a.sessionId].risk)
                       && s == w.sessions[a.sessionId].(risk := s.risk, lastActivity := now, expiresAt := s.expiresAt))
                 && w'.sessions.Keys == w.sessions.Keys + {a.sessionId}
    ensures var (w', a) := Check(w, req, freshId, now);
            && w'.rows == w.rows && w'.sites == w.sites
            && (forall id | id in w.sessions && !(a.Checked? && a.sessionId == id) ::
                  id in w'.sessions && w'.sessions[id] == w.sessions[id])
            && (!a.Checked? ==> w' == w)
  {
  }

  /** The header names the session, or else the cookie does. */
  lemma HeaderBeforeCookie(w: World, req: CheckRequest, id: string, cookie: string, freshId: string, now: Time)
    requires id != ""
    ensures Check(w, req.(headerSession := id, cookieSession := cookie), freshId, now) ==
            Check(w, req.(headerSession := "", cookieSession := id), freshId, now)
    ensures var byHeader := req.(headerSession := id, cookieSession := cookie);
            Check(w, byHeader, freshId, now).1.Checked? ==>
              Check(w, byHeader, freshId, now).1.sessionId == (if id in w.sessions then id else freshId)
  {
  }

  /** The refusals, each with its exact cause. */
  lemma CheckRefusals(w: World, req: CheckRequest, freshId: string, now: Time)
    ensures Check(w, req, freshId, now).1 == Preflight <==> req.preflight
    ensures !req.preflight && req.siteId != "" && req.siteId in w.sites && w.sites[req.siteId].status == Active
            && (req.siteId, req.ip) in w.rows
            && (w.rows[(req.siteId, req.ip)].expiresAt == None || now < w.rows[(req.siteId, req.ip)].expiresAt.value)
            <==> Check(w, req, freshId, now).1 == AddressBlocked
    ensures Check(w, req, freshId, now).1 == SiteIdRequired <==> !req.preflight && req.siteId == ""
    ensures Check(w, req, freshId, now).1 == SiteNotFound <==>
              !req.preflight && req.siteId != "" && req.siteId !in w.sites
    ensures Check(w, req, freshId, now).1 == SiteNotActive <==>
              !req.preflight && req.siteId != "" && req.siteId in w.sites && w.sites[req.siteId].status != Active
    ensures Check(w, req, freshId, now).1 == BadBody <==>
              Served(w, req) && !Barred(w, req, now) && !req.body.Parsed?
    ensures Check(w, req, freshId, now).1 == ForeignSession <==>
              && Served(w, req) && !Barred(w, req, now) && req.body.Parsed?
              && req.SessionId() != "" && req.SessionId() in w.sessions
              && w.sessions[req.SessionId()].siteId != req.siteId
  {
  }

  /** The request asks for a visitor of an active site. */
  predicate Served(w: World, req: CheckRequest) {
    !req.preflight && req.siteId != "" && req.siteId in w.sites && w.sites[req.siteId].status == Active
  }

  /** An entry in force bars its address from its site. */
  predicate Barred(w: World, req: CheckRequest, now: Time) {
    var key := (req.siteId, req.ip);
    key in w.rows && (w.rows[key].expiresAt == None || now < w.rows[key].expiresAt.value)
  }

  /** The detector and the check together: what a new detector makes of a
      session decides the next check that names it, if nothing refuses that and
      no captcha was passed. */
  lemma RiskDecidesNextCheck(w: World, id: string, ip: string, userAgent: string, now: Time, done: Time, rowId: string,
                             req: CheckRequest, freshId: string, t: Time)
    requires id in w.sessions && req.SessionId() == id != ""
    requires var w' := Analyze(w, FORGETFUL, id, ip, userAgent, now, done, rowId).1;
             Check(w', req, freshId, t).1.Checked? && !req.body.captchaPassed
    ensures var w' := Analyze(w, FORGETFUL, id, ip, userAgent, now, done, rowId).1;
            var risk, a := FreshRisk(w, id, ip, userAgent, now), Check(w', req, freshId, t).1;
            && a.sessionId == id && a.risk == risk
            && (a.action == Deny <==> risk >= 80) && (a.action == Challenge <==> 50 <= risk < 80)
            && (a.action == Allow <==> risk < 50)
  {
    hide Analyze, FreshRisk, Listed, Upsert;
    FreshAnalysis(w, id, ip, userAgent, now, done, rowId);
    ApplyWritesOne(w, id, FreshRisk(w, id, ip, userAgent, now), rowId, done);
  }

  /** A ban with an expiry, from the insert on: it bars every check of the
      address until that instant, and none from then on. */
  lemma BannedUntil(w: World, e: Entry, req: CheckRequest, freshId: string, t: Time)
    requires Upsert(w.rows, w.sites.Keys, e).1.Ok? && e.expiresAt.Some?
    requires Served(w, req) && req.siteId == e.siteId && Column(e.ip, IP_WIDTH) == Some(req.ip)
    ensures Check(w.(rows := Upsert(w.rows, w.sites.Keys, e).0), req, freshId, t).1 == AddressBlocked <==>
              t < e.expiresAt.value
  {
  }

  /** A visitor's session is looked up without a look at its expiry, so a
      cleanup beforehand is visible to a check that names the session exactly
      when the session was expired or blocked: it is then served under a new one. */
  lemma CleanupSeenByCheckIff(w: World, req: CheckRequest, freshId: string, now: Time)
    requires Refusal(w, req, now).None? && req.SessionId() != "" && req.SessionId() in w.sessions
    requires freshId !in w.sessions
    ensures var swept := w.(sessions := Cleanup(w.sessions, now));
            Check(swept, req, freshId, now).1 != Check(w, req, freshId, now).1 <==>
              Dead(w.sessions[req.SessionId()], now)
  {
    hide Refresh, SetRisk, Create;
  }

  /** A session that ran out a moment ago: kept on, or replaced if a cleanup came first. */
  lemma ExpiredSessionSeen(freshId: string, now: Time)
    requires freshId != "old"
    ensures var req := CheckRequest(false, "site", "10.0.0.1", "", "old", "", Parsed(false));
            var expired := NewSession("old", req).(createdAt := now - SESSION_TTL - 1, expiresAt := now - 1);
            var w := World(map["old" := expired], map[], map["site" := Site(Active, Some(Analyzer(true, true)))]);
            && Check(w, req, freshId, now).1 == Checked(Allow, "old", 0)
            && Check(w.(sessions := Cleanup(w.sessions, now)), req, freshId, now).1 == Checked(Allow, freshId, 0)
  {
  }

  // ------------------------------------------- POST /api/behavior/{id}

  datatype Submission = Submission(
    preflight: bool,
    sessionId: string,
    siteHeader: string,
    batch: Option<Batch>)

  /** The decoded body; `None` above is a body that does not decode. */
  datatype Batch = Batch(sessionId: string, metrics: Metrics)

  /** `Accepted` carries the analysis that is started in the background. */
  datatype SubmitAnswer =
    | SubmitPreflight
    | SessionIdRequired
    | SessionMissing
    | SiteMismatch
    | BadJson
    | SessionMismatch
    | Accepted(sessionId: string, ip: string, userAgent: string)

  function Submit(w: World, req: Submission): (World, SubmitAnswer) {
    if req.preflight then (w, SubmitPreflight)
    else if req.sessionId == "" then (w, SessionIdRequired)
    else if req.sessionId !in w.sessions then (w, SessionMissing)
    else
      var s := w.sessions[req.sessionId];
      if req.siteHeader != "" && s.siteId != req.siteHeader then (w, SiteMismatch)
      else if req.batch.None? then (w, BadJson)
      else if req.batch.value.sessionId != req.sessionId then (w, SessionMismatch)
      else (w.(sessions := MergeMetrics(w.sessions, req.sessionId, req.batch.value.metrics)),
            Accepted(req.sessionId, s.ip, s.userAgent))
  }

  /** The refusals of a submission, each with its exact cause; none changes
      anything. */
  lemma SubmitRefusals(w: World, req: Submission)
    ensures var (w', a) := Submit(w, req);
            var known := req.sessionId != "" && req.sessionId in w.sessions;
            var foreign := known && req.siteHeader != "" && w.sessions[req.sessionId].siteId != req.siteHeader;
            && (a == SubmitPreflight <==> req.preflight)
            && (a == SessionIdRequired <==> !req.preflight && req.sessionId == "")
            && (a == SessionMissing <==> !req.preflight && req.sessionId != "" && !known)
            && (a == SiteMismatch <==> !req.preflight && foreign)
            && (a == BadJson <==> !req.preflight && known && !foreign && req.batch == None)
            && (a == SessionMismatch <==> !req.preflight && known && !foreign
                                          && req.batch.Some? && req.batch.value.sessionId != req.sessionId)
            && (!a.Accepted? ==> w' == w)
  {
  }

  /** A run of submissions for one session. */
  function SubmitEach(w: World, reqs: seq<Submission>): World
    decreases |reqs|
  {
    if reqs == [] then w else SubmitEach(Submit(w, reqs[0]).0, reqs[1..])
  }

  function Batches(reqs: seq<Submission>): seq<Metrics>
    requires forall r | r in reqs :: r.batch.Some?
  {
    seq(|reqs|, i requires 0 <= i < |reqs| => reqs[i].batch.value.metrics)
  }

  /** After any accepted submissions the session's metrics are its earlier ones
      merged with every batch in order, and nothing else about it changed. */
  lemma {:induction false} SubmissionsMergeInOrder(w: World, sessionId: string, reqs: seq<Submission>)
    requires sessionId in w.sessions && sessionId != ""
    requires forall r | r in reqs ::
               && !r.preflight && r.sessionId == sessionId
               && (r.siteHeader == "" || r.siteHeader == w.sessions[sessionId].siteId)
               && r.batch.Some? && r.batch.value.sessionId == sessionId
    ensures var s := w.sessions[sessionId];
            SubmitEach(w, reqs) ==
              w.(sessions := w.sessions[sessionId := s.(metrics := MergeAll(s.metrics, Batches(reqs)))])
    decreases |reqs|
  {
    hide Submit;
    var s := w.sessions[sessionId];
    if reqs == [] {
      assert w.sessions[sessionId := s] == w.sessions;
    } else {
      var rest := reqs[1..];
      assert forall r | r in rest :: r in reqs;
      assert reqs[0] in reqs;
      SubmitAccepts(w, reqs[0]);
      var w1 := Submit(w, reqs[0]).0;
      SubmissionsMergeInOrder(w1, sessionId, rest);
      assert Batches(reqs)[0] == reqs[0].batch.value.metrics && Batches(reqs)[1..] == Batches(rest);
      UpdateTwice(w.sessions, sessionId, w1.sessions[sessionId], s.(metrics := MergeAll(s.metrics, Batches(reqs))));
    }
  }

  lemma UpdateTwice(m: Table, id: string, first: Session, second: Session)
    ensures m[id := first][id := second] == m[id := second]
  {
  }

  lemma SubmitAccepts(w: World, req: Submission)
    requires req.sessionId != "" && req.sessionId in w.sessions && !req.preflight
    requires req.siteHeader == "" || req.siteHeader == w.sessions[req.sessionId].siteId
    requires req.batch.Some? && req.batch.value.sessionId == req.sessionId
    ensures var s := w.sessions[req.sessionId];
            var merged := s.(metrics := s.metrics + req.batch.value.metrics);
            && Submit(w, req).0 == w.(sessions := w.sessions[req.sessionId := merged])
            && Submit(w, req).1 == Accepted(req.sessionId, s.ip, s.userAgent)
  {
  }

  // ------------------------------------- POST /api/sessions/{id}/analyze

  datatype TriggerAnswer = TriggerIdRequired | Unauthorized | TriggerFailed | Triggered(risk: int, isBlocked: bool)

  /** The analysis runs with an empty address and an empty user agent. */
  function Trigger(w: World, sessionId: string, userId: string, now: Time, done: Time,
                   freshId: string): (World, TriggerAnswer) {
    if sessionId == "" then (w, TriggerIdRequired)
    else if userId == "" then (w, Unauthorized)
    else
      var (r, w', _) := Analyze(w, FORGETFUL, sessionId, "", "", now, done, freshId);
      if r.Err? || sessionId !in w'.sessions then (w', TriggerFailed)
      else (w', Triggered(w'.sessions[sessionId].risk, w'.sessions[sessionId].isBlocked))
  }

  /** An analysis by hand needs a session id, a user, and a stored session. */
  lemma TriggerRefusals(w: World, sessionId: string, userId: string, now: Time, done: Time, freshId: string)
    ensures var (w', a) := Trigger(w, sessionId, userId, now, done, freshId);
            && (a == TriggerIdRequired <==> sessionId == "")
            && (a == Unauthorized <==> sessionId != "" && userId == "")
            && (a == TriggerFailed <==> sessionId != "" && userId != "" && sessionId !in w.sessions)
            && (!a.Triggered? ==> w' == w)
            && (a.Triggered? ==> sessionId in w'.sessions && a.risk == w'.sessions[sessionId].risk
                                 && a.isBlocked == w'.sessions[sessionId].isBlocked)
  {
    hide Analyze, FreshRisk;
    FreshAnalysis(w, sessionId, "", "", now, done, freshId);
    if sessionId in w.sessions {
      ApplyWritesOne(w, sessionId, FreshRisk(w, sessionId, "", "", now), freshId, done);
    }
  }

  lemma EmptyAgentScore()
    ensures HeadlessScore("") == 35
  {
    HeadlessScoreMeaning("");
    var hits := set i | 0 <= i < |INDICATORS| && Contains("", INDICATORS[i]);
    forall i | 0 <= i < |INDICATORS|
      ensures !Contains("", INDICATORS[i])
    {
      assert |INDICATORS[i]| > 0;
    }
    assert hits == {};
    forall p | p in PLATFORMS
      ensures !Contains("", p)
    {
      assert |p| > 0;
    }
  }

  /** An analysis triggered by hand does not use the visitor's own agent: with
      headless detection on it scores at least 35 for that alone, whoever the
      visitor is, and the reported risk is the stored one. */
  lemma TriggerBaseline(w: World, sessionId: string, userId: string, now: Time, done: Time, freshId: string)
    requires sessionId in w.sessions && sessionId != "" && userId != ""
    ensures var (w', a) := Trigger(w, sessionId, userId, now, done, freshId);
            && a.Triggered? && sessionId in w'.sessions && a.risk == w'.sessions[sessionId].risk
            && (SettingsOf(w.sites, w.sessions[sessionId].siteId).headlessDetection ==> a.risk >= 35)
            && (a.risk >= 80 ==> a.isBlocked)
  {
    hide Analyze, HeadlessScore;
    FreshAnalysis(w, sessionId, "", "", now, done, freshId);
    EmptyAgentScore();
    EvidenceBound(w.sessions[sessionId].metrics);
  }
}
