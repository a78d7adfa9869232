/** The handlers of backend/handlers/visitor_session.go and
    backend/handlers/behaviour.go over the shared storage. */
module Handlers {
  import opened Basics
  import opened Detection
  import opened Detector
  import opened Sessions
  import opened SessionStore
  import opened Sites
  import opened Visits

  class VisitorSessionHandler {
    const storage: Storage

    constructor (storage: Storage)
      ensures this.storage == storage
    {
      this.storage := storage;
    }

    /** Everything up to the session lookup. */
    method Refuse(req: CheckRequest, now: Time) returns (a: Option<CheckAnswer>)
      requires storage.Valid()
      ensures a == Refusal(storage.Value(), req, now)
      ensures a.None? ==> req.body.Parsed?
    {
      if req.preflight {
        return Some(Preflight);
      }
      if req.siteId == "" {
        return Some(SiteIdRequired);
      }
      var site := storage.tables.GetSite(req.siteId);
      if site.None? {
        return Some(SiteNotFound);
      }
      if site.value.status != Active {
        return Some(SiteNotActive);
      }
      var blacklisted := storage.tables.IsBlacklisted(req.siteId, req.ip, now);
      if blacklisted {
        return Some(AddressBlocked);
      }
      if !req.body.Parsed? {
        return Some(BadBody);
      }
      return None;
    }

    /** Create and store a session for the request. */
    method Enroll(req: CheckRequest, freshId: string, now: Time) returns (session: ActiveSession)
      requires storage.Valid()
      modifies storage.sessions
      ensures storage.Valid() && fresh(session) && fresh(session.metrics)
      ensures session.id == freshId && freshId in storage.sessions.sessions
      ensures storage.sessions.sessions[freshId] == session
      ensures storage.Value() == old(storage.Value()).(sessions := Create(old(storage.Value()).sessions,
          NewSession(freshId, req), now))
    {
      hide MemorySessionStore.Owned, Create;
      ghost var w := storage.Value();
      var metrics := new MetricsMap(map[]);
      session := new ActiveSession(freshId, req.siteId, req.ip, req.userAgent, metrics);
      assert storage.Value() == w;
      assert session.Value() == NewSession(freshId, req);
      storage.sessions.CreateSession(session, now);
    }

    method CheckRequest(req: CheckRequest, freshId: string, now: Time) returns (a: CheckAnswer)
      requires storage.Valid() && freshId !in storage.sessions.sessions
      modifies storage.sessions, storage.sessions.At(req.SessionId())
      ensures storage.Valid()
      ensures (storage.Value(), a) == Check(old(storage.Value()), req, freshId, now)
    {
      hide MemorySessionStore.Owned, Refusal, Create, Refresh, SetRisk;
      ghost var w := storage.Value();
      var refused := Refuse(req, now);
      assert storage.Value() == w;
      if refused.Some? {
        return refused.value;
      }
      var sessionId := if req.headerSession != "" then req.headerSession else req.cookieSession;
      var found: Option<ActiveSession> := None;
      if sessionId != "" {
        found := storage.sessions.GetSession(sessionId);
      }
      storage.sessions.Fields();
      assert storage.Value() == w;
      var session: ActiveSession;
      if found.None? {
        session := Enroll(req, freshId, now);
        sessionId := freshId;
      } else {
        session := found.value;
        if session.siteId != req.siteId {
          return ForeignSession;
        }
      }
      ghost var admitted := storage.Value();
      assert admitted == w.(sessions := Admit(w.sessions, req, freshId, now).0);
      a := Serve(session, sessionId, req.body.captchaPassed, now);
    }

    /** Refresh the session and decide. */
    method Serve(session: ActiveSession, sessionId: string, captchaPassed: bool, now: Time) returns (a: CheckAnswer)
      requires storage.Valid() && sessionId in storage.sessions.sessions
      requires storage.sessions.sessions[sessionId] == session
      modifies session
      ensures storage.Valid()
      ensures var w := old(storage.Value());
              && sessionId in w.sessions
              && var refreshed := Refresh(w.sessions, sessionId, now);
                 if captchaPassed then
                   && storage.Value() == w.(sessions := SetRisk(refreshed, sessionId, 0))
                   && a == Checked(Allow, sessionId, 0)
                 else
                   storage.Value() == w.(sessions := refreshed)
                   && a == Checked(ActionFor(w.sessions[sessionId].risk), sessionId, w.sessions[sessionId].risk)
    {
      hide MemorySessionStore.Owned, Refresh, SetRisk;
      ghost var w := storage.Value();
      storage.sessions.Fields();
      var currentRisk := session.risk;
      var updated := storage.sessions.UpdateSessionActivity(sessionId, now);
      var action := Allow;
      if captchaPassed {
        assert storage.Value() == w.(sessions := Refresh(w.sessions, sessionId, now));
        var reset := storage.sessions.UpdateRiskScore(sessionId, 0);
        currentRisk := 0;
      } else if currentRisk >= 80 {
        action := Deny;
      } else if currentRisk >= 50 {
        action := Challenge;
      }
      a := Checked(action, sessionId, currentRisk);
    }
  }

  class BehaviorHandler {
    const store: Storage

    constructor (store: Storage)
      ensures this.store == store
    {
      this.store := store;
    }

    /** The batch is first written into the session's own map, as the store
        returned it, and then that map is merged into itself. */
    method SubmitBehavior(req: Submission) returns (a: SubmitAnswer)
      requires store.Valid()
      modifies store.sessions.MetricsAt(req.sessionId)
      ensures store.Valid()
      ensures (store.Value(), a) == Submit(old(store.Value()), req)
    {
      hide MemorySessionStore.Owned, MergeMetrics;
      if req.preflight {
        return SubmitPreflight;
      }
      if req.sessionId == "" {
        return SessionIdRequired;
      }
      ghost var w := store.Value();
      store.sessions.Fields();
      store.sessions.Within("", ZERO_TIME, 0);
      var found := store.sessions.GetSession(req.sessionId);
      assert store.Value() == w;
      if found.None? {
        return SessionMissing;
      }
      var session := found.value;
      if req.siteHeader != "" && session.siteId != req.siteHeader {
        return SiteMismatch;
      }
      if req.batch.None? {
        return BadJson;
      }
      if req.batch.value.sessionId != req.sessionId {
        return SessionMismatch;
      }
      MergeBatch(req.sessionId, req.batch.value.metrics);
      return Accepted(req.sessionId, session.ip, session.userAgent);
    }

    /** The goroutine started by an accepted submission: a detector of its own. */
    method BackgroundAnalysis(work: SubmitAnswer, now: Time, done: Time, freshId: string) returns (r: Result<()>)
      requires store.Valid() && work.Accepted? && |work.sessionId| >= 8 && freshId != ""
      modifies store.tables, store.sessions.At(work.sessionId)
      ensures store.Valid()
      ensures var (r', w', _) := Analyze(old(store.Value()), FORGETFUL, work.sessionId, work.ip, work.userAgent, now,
          done, freshId);
              r == r' && store.Value() == w'
    {
      hide Analyze, MemorySessionStore.Owned;
      ghost var w := store.Value();
      var d := new Detector(store);
      assert store.Value() == w;
      r := d.AnalyzeAndUpdate(work.sessionId, work.ip, work.userAgent, now, done, freshId);
    }

    method TriggerAnalysis(sessionId: string, userId: string, now: Time, done: Time, freshId: string)
      returns (a: TriggerAnswer)
      requires store.Valid() && (|sessionId| >= 8 || sessionId == "") && freshId != ""
      modifies store.tables, store.sessions.At(sessionId)
      ensures store.Valid()
      ensures (store.Value(), a) == Trigger(old(store.Value()), sessionId, userId, now, done, freshId)
    {
      hide Analyze, MemorySessionStore.Owned;
      if sessionId == "" {
        return TriggerIdRequired;
      }
      if userId == "" {
        return Unauthorized;
      }
      var r := BackgroundAnalysis(Accepted(sessionId, "", ""), now, done, freshId);
      if r.Err? {
        return TriggerFailed;
      }
      ghost var analyzed := store.Value();
      store.sessions.Fields();
      store.sessions.Within("", now, 0);
      var found := store.sessions.GetSession(sessionId);
      assert store.Value() == analyzed;
      if found.None? {
        return TriggerFailed;
      }
      return Triggered(found.value.risk, found.value.isBlocked);
    }

    static lemma MergeNothing(m: Table, id: string)
      ensures MergeMetrics(m, id, map[]) == m
    {
      assert id in m ==> m[id].metrics + map[] == m[id].metrics;
    }

    /** Merging a session's metrics into themselves changes nothing. */
    static lemma MergeOwn(m: Table, id: string)
      requires id in m
      ensures MergeMetrics(m, id, m[id].metrics) == m
    {
      assert m[id].metrics + m[id].metrics == m[id].metrics;
    }

    method MergeBatch(sessionId: string, batch: Metrics)
      requires store.Valid() && sessionId in store.sessions.sessions
      modifies store.sessions.MetricsAt(sessionId)
      ensures store.Valid()
      ensures store.sessions.Contents() == MergeMetrics(old(store.sessions.Contents()), sessionId, batch)
    {
      MergeNothing(store.sessions.Contents(), sessionId);
      if |batch| > 0 {
        var existingMetrics := WriteBatch(sessionId, batch);
        ghost var written := store.sessions.Contents();
        assert sessionId in written && written[sessionId].metrics == existingMetrics.entries by {
          store.sessions.Values();
        }
        MergeOwn(written, sessionId);
        var updated := store.sessions.UpdateSessionMetrics(sessionId, existingMetrics);
      }
    }

    /** The loop over the batch: it writes through the reference the store handed out. */
    method WriteBatch(sessionId: string, batch: Metrics) returns (existingMetrics: MetricsMap)
      requires store.Valid() && sessionId in store.sessions.sessions
      modifies store.sessions.MetricsAt(sessionId)
      ensures store.Valid() && existingMetrics == store.sessions.sessions[sessionId].metrics
      ensures store.sessions.Contents() == MergeMetrics(old(store.sessions.Contents()), sessionId, batch)
    {
      hide MemorySessionStore.TableOf;
      ghost var after := MergeMetrics(store.sessions.Contents(), sessionId, batch);
      store.sessions.Values();
      var found := store.sessions.GetSessionMetrics(sessionId);
      existingMetrics := found.value;
      var decoded := new MetricsMap(batch);
      MemorySessionStore.Overlay(existingMetrics, decoded);
      store.sessions.TableIs(after);
    }
  }
}
