/** What a conviction does to an address: when it is listed for good, and which
    checks are then told to go, over every run of the protocol. */
module Convictions {
  import opened Basics
  import opened Blacklist
  import opened Detection
  import opened Protocol
  import opened Safety
  import opened Scoring
  import opened Sessions
  import opened Sites
  import opened Visits

  // ------------------------------------------------- the rows of every run

  /** Only its last call touches the rows. */
  lemma AdvanceRows(w: World, d: Memory, j: Job, now: Time, freshId: string)
    ensures var w' := Advance(w, d, j, now, freshId).0;
            && w'.sites == w.sites
            && (w'.rows == w.rows
                || (j.stage.Listing?
                    && w'.rows == Upsert(w.rows, w.sites.Keys, EntryFor(j.stage.pair, j.stage.risk, freshId, now)).0))
  {
    hide HeadlessScore, DeepRisk, Judge, Record, Hit, Listed, SetRisk, Block, Upsert, EntryFor, SettingsOf;
  }

  lemma RowsFitStep(shared: bool, s: State, a: Protocol.Action)
    requires RowsFit(s.world.rows, s.world.sites.Keys)
    ensures RowsFit(Step(shared, s, a).world.rows, Step(shared, s, a).world.sites.Keys)
  {
    hide Advance, RowsFit, Upsert, Delete, Cascade, Create, Refresh, SetRisk, Unblock, Listed, EntryFor, MemoryOf;
    var w, s' := s.world, Step(shared, s, a);
    match a
    case AnalysisStep(pid, freshId) =>
      if pid in s.jobs {
        var j := s.jobs[pid];
        AdvanceRows(w, MemoryOf(shared, s), j, s.now, freshId);
        var pair := if j.stage.Listing? then j.stage.pair else ("", "");
        var risk := if j.stage.Listing? then j.stage.risk else 0;
        StatementsKeepRowsFit(w.rows, w.sites.Keys, EntryFor(pair, risk, freshId, s.now), "", "");
      }
    case AdminList(entry) => StatementsKeepRowsFit(w.rows, w.sites.Keys, entry, "", "");
    case AdminUnlist(siteId, ip) =>
      StatementsKeepRowsFit(w.rows, w.sites.Keys, Entry("", "", "", "", 0, None), siteId, ip);
    case EditSite(siteId, site) =>
      StatementsKeepRowsFit(w.rows, w.sites.Keys, Entry("", "", "", "", 0, None), siteId, "");
      assert s'.world.sites.Keys == w.sites.Keys + {siteId};
    case DropSite(siteId) =>
      StatementsKeepRowsFit(w.rows, w.sites.Keys, Entry("", "", "", "", 0, None), siteId, "");
      assert s'.world.sites.Keys == w.sites.Keys - {siteId};
    case _ =>
  }

  /** In every state of every run the blacklist holds only addresses that fit
      its column, of sites that exist. */
  lemma {:induction false} EveryRowFits(shared: bool, sites: SiteRows, now: Time, acts: seq<Protocol.Action>)
    ensures var w := Run(shared, Start(sites, now), acts).world; RowsFit(w.rows, w.sites.Keys)
  {
    hide Step, RowsFit;
    if acts == [] {
      NoRowsFit(sites.Keys);
    } else {
      EveryRowFits(shared, sites, now, acts[..|acts| - 1]);
      RowsFitStep(shared, Run(shared, Start(sites, now), acts[..|acts| - 1]), acts[|acts| - 1]);
    }
  }

  lemma NoRowsFit(siteIds: set<string>)
    ensures RowsFit(map[], siteIds)
  {
  }

  /** So an address that does not fit is never refused for being listed. */
  lemma UnfitAddressNeverRefused(
      shared: bool, sites: SiteRows, now: Time, acts: seq<Protocol.Action>, req: CheckRequest, freshId: string, t: Time)
    requires !Fits(req.ip, IP_WIDTH)
    ensures !Listed(Run(shared, Start(sites, now), acts).world.rows, req.siteId, req.ip, t)
    ensures Check(Run(shared, Start(sites, now), acts).world, req, freshId, t).1 != AddressBlocked
  {
    hide Run;
    EveryRowFits(shared, sites, now, acts);
    CheckRefusals(Run(shared, Start(sites, now), acts).world, req, freshId, t);
  }

  // ---------------------------------------------- an entry made for good

  /** An administrator takes the entry away, gives it an expiry, or deletes the site. */
  predicate Lifts(a: Protocol.Action, pair: Pair) {
    match a
    case AdminUnlist(siteId, ip) => (siteId, ip) == pair
    case AdminList(entry) =>
      entry.siteId == pair.0 && Column(entry.ip, IP_WIDTH) == Some(pair.1) && entry.expiresAt.Some?
    case DropSite(siteId) => siteId == pair.0
    case _ => false
  }

  ghost predicate Undisturbed(acts: seq<Protocol.Action>, pair: Pair) {
    forall a | a in acts :: !Lifts(a, pair)
  }

  ghost predicate Permanent(s: State, pair: Pair) {
    pair in s.world.rows && s.world.rows[pair].expiresAt == None
  }

  lemma PermanentStep(shared: bool, s: State, a: Protocol.Action, pair: Pair)
    requires Permanent(s, pair) && !Lifts(a, pair)
    ensures Permanent(Step(shared, s, a), pair)
  {
    hide DeepRisk, HeadlessScore, BlockReason, Listed, SettingsOf, Create, Refresh, SetRisk, Block, Judge, Record, Hit;
  }

  /** A permanent entry survives every run in which nobody lifts it. */
  lemma {:induction false} PermanentRun(shared: bool, s: State, acts: seq<Protocol.Action>, pair: Pair)
    requires Permanent(s, pair) && Undisturbed(acts, pair)
    ensures Permanent(Run(shared, s, acts), pair)
  {
    hide Step, Permanent, Lifts;
    if acts != [] {
      PermanentRun(shared, s, acts[..|acts| - 1], pair);
      PermanentStep(shared, Run(shared, s, acts[..|acts| - 1]), acts[|acts| - 1], pair);
    }
  }

  /** The pair is listed from now on, whatever runs, until somebody lifts it. */
  ghost predicate ListedForGood(shared: bool, s: State, pair: Pair) {
    forall acts: seq<Protocol.Action>, t: Time | Undisturbed(acts, pair) ::
      Listed(Run(shared, s, acts).world.rows, pair.0, pair.1, t)
  }

  lemma ListedForGoodIff(shared: bool, s: State, pair: Pair)
    requires pair in s.world.rows ==> Permanent(s, pair)
    ensures ListedForGood(shared, s, pair) <==> pair in s.world.rows
  {
    hide Step;
    if pair in s.world.rows {
      forall acts: seq<Protocol.Action>, t: Time | Undisturbed(acts, pair)
        ensures Listed(Run(shared, s, acts).world.rows, pair.0, pair.1, t)
      {
        PermanentRun(shared, s, acts, pair);
      }
    } else {
      assert Undisturbed([], pair) && Run(shared, s, []) == s;
      assert !Listed(Run(shared, s, []).world.rows, pair.0, pair.1, 0);
    }
  }

  /** The last call of a conviction makes the entry exactly when a row can hold
      the pair, and otherwise leaves it without one. */
  lemma EntryStep(shared: bool, s: State, pid: nat, entryId: string)
    requires pid in s.jobs && s.jobs[pid].stage.Listing? && RowsFit(s.world.rows, s.world.sites.Keys)
    ensures var s', pair := Step(shared, s, AnalysisStep(pid, entryId)), s.jobs[pid].stage.pair;
            && (pair in s'.world.rows <==> Listable(s.world.sites.Keys, pair))
            && (pair in s'.world.rows ==> Permanent(s', pair))
  {
    hide BlockReason, Hit;
  }

  /** An analysis convicts a session it has found. Once it has finished, the
      site and address that session was created with are listed for good,
      through every run in which nobody lifts the entry, if and only if at the
      insert the address fits the column and the site exists; then every
      later check of that site from that address is answered with a block,
      even when the session itself is long swept. */
  lemma ConvictedAddressStaysBlocked(
      shared: bool, sites: SiteRows, now: Time, before: seq<Protocol.Action>, pid: nat, entryId: string)
    returns (pair: Pair)
    requires var s := Run(shared, Start(sites, now), before); pid in s.jobs && s.jobs[pid].stage.Listing?
    ensures var s := Run(shared, Start(sites, now), before);
            var id := s.jobs[pid].sessionId;
            && id in s.born && pair == s.born[id] == s.jobs[pid].stage.pair
            && (id in s.world.sessions ==> pair == (s.world.sessions[id].siteId, s.world.sessions[id].ip))
    ensures var s := Run(shared, Start(sites, now), before);
            ListedForGood(shared, Step(shared, s, AnalysisStep(pid, entryId)), pair) <==>
              Listable(s.world.sites.Keys, pair)
    ensures var s := Run(shared, Start(sites, now), before);
            var done := Step(shared, s, AnalysisStep(pid, entryId));
            Listable(s.world.sites.Keys, pair) ==>
              forall after | Undisturbed(after, pair) :: RefusesAll(Run(shared, done, after), pair)
  {
    hide Step, Safe, Lifts, Listable, ListedForGood, RefusesAll;
    var s := Run(shared, Start(sites, now), before);
    pair := s.jobs[pid].stage.pair;
    EveryRunIsSafe(shared, sites, now, before);
    SafeSession(s, Top(shared), s.jobs[pid].sessionId);
    SafeJob(s, Top(shared), pid);
    EveryRowFits(shared, sites, now, before);
    EntryStep(shared, s, pid, entryId);
    var done := Step(shared, s, AnalysisStep(pid, entryId));
    ListedForGoodIff(shared, done, pair);
    if Listable(s.world.sites.Keys, pair) {
      forall after | Undisturbed(after, pair)
        ensures RefusesAll(Run(shared, done, after), pair)
      {
        PermanentRun(shared, done, after, pair);
        PermanentRefuses(Run(shared, done, after), pair);
      }
    }
  }

  lemma SafeJob(s: State, top: int, pid: nat)
    requires Safe(s, top) && pid in s.jobs
    ensures JobOk(s, top, s.jobs[pid])
  {
  }

  /** Every check of the site from the address, made here at any time, is
      answered with a block while the site is active. */
  ghost predicate RefusesAll(s: State, pair: Pair) {
    pair.0 in s.world.sites && s.world.sites[pair.0].status == Active && pair.0 != "" ==>
      forall req: CheckRequest, id: string, t: Time | !req.preflight && (req.siteId, req.ip) == pair ::
        Check(s.world, req, id, t).1 == AddressBlocked
  }

  lemma PermanentRefuses(s: State, pair: Pair)
    requires Permanent(s, pair)
    ensures RefusesAll(s, pair)
  {
    hide Check;
    forall req: CheckRequest, id: string, t: Time |
      && pair.0 in s.world.sites && s.world.sites[pair.0].status == Active && pair.0 != ""
      && !req.preflight && (req.siteId, req.ip) == pair
      ensures Check(s.world, req, id, t).1 == AddressBlocked
    {
      CheckRefusals(s.world, req, id, t);
    }
  }

  // --------------------------------------------------- checks in flight

  /** The check has not read the list yet. */
  predicate Ahead(v: Visit) {
    v.phase == FindingSite || v.phase == CheckingList
  }

  /** The check was answered before it came to read the list. */
  predicate TurnedAway(v: Visit) {
    v.phase.Answered? && v.phase.answer in {Preflight, SiteIdRequired, SiteNotFound, SiteNotActive}
  }

  predicate Refused(v: Visit) {
    v.phase == Answered(AddressBlocked)
  }

  lemma ProceedUnderEntry(w: World, v: Visit, now: Time, freshId: string, detached: int)
    requires Listed(w.rows, v.req.siteId, v.req.ip, now)
    ensures var v' := Proceed(w, v, now, freshId, detached).1;
            && v'.req == v.req
            && (Ahead(v) ==> Ahead(v') || TurnedAway(v') || Refused(v'))
            && (TurnedAway(v) ==> TurnedAway(v')) && (Refused(v) <==> Refused(v') && !Ahead(v))
            && (!Ahead(v) && !TurnedAway(v) ==> !Ahead(v') && !TurnedAway(v'))
  {
    hide Listed, Create, Refresh, SetRisk, ActionFor;
  }

  lemma VisitStep(shared: bool, s: State, a: Protocol.Action, vid: nat)
    requires vid in s.visits && Permanent(s, (s.visits[vid].req.siteId, s.visits[vid].req.ip))
    ensures vid in Step(shared, s, a).visits
    ensures var v, v' := s.visits[vid], Step(shared, s, a).visits[vid];
            && v'.req == v.req
            && (Ahead(v) ==> Ahead(v') || TurnedAway(v') || Refused(v'))
            && (TurnedAway(v) ==> TurnedAway(v')) && (Refused(v) <==> Refused(v') && !Ahead(v))
            && (!Ahead(v) && !TurnedAway(v) ==> !Ahead(v') && !TurnedAway(v'))
  {
    hide Advance, Proceed, Ahead, TurnedAway, Refused;
    OneFate(s.visits[vid]);
    if a.CheckStep? && a.vid == vid {
      ProceedUnderEntry(s.world, s.visits[vid], s.now, a.freshId, a.detached);
    }
  }

  /** A check in flight when the entry lands: if it has not read the list yet
      it is refused, or turned away before, or still on its way; if it has, it
      is never refused, whatever runs. */
  lemma {:induction false} InFlightRefusedIff(shared: bool, s: State, acts: seq<Protocol.Action>, vid: nat)
    requires vid in s.visits && !TurnedAway(s.visits[vid]) && !Refused(s.visits[vid])
    requires var pair := (s.visits[vid].req.siteId, s.visits[vid].req.ip); Permanent(s, pair) && Undisturbed(acts, pair)
    ensures vid in Run(shared, s, acts).visits
    ensures var v, v' := s.visits[vid], Run(shared, s, acts).visits[vid];
            && v'.req == v.req
            && (v'.phase.Answered? && !TurnedAway(v') ==> (v'.phase.answer == AddressBlocked <==> Ahead(v)))
            && (Ahead(v) ==> Ahead(v') || TurnedAway(v') || Refused(v'))
            && (!Ahead(v) ==> !Ahead(v') && !TurnedAway(v') && !Refused(v'))
  {
    hide Step, Permanent, Lifts, TurnedAway, Ahead;
    if acts == [] {
      OneFate(s.visits[vid]);
    } else {
      var init := acts[..|acts| - 1];
      InFlightRefusedIff(shared, s, init, vid);
      PermanentRun(shared, s, init, (s.visits[vid].req.siteId, s.visits[vid].req.ip));
      VisitStep(shared, Run(shared, s, init), acts[|acts| - 1], vid);
      OneFate(Run(shared, s, acts).visits[vid]);
    }
  }

  const OPEN_SITE := Site(Active, Some(Analyzer(true, true)))

  const LATE := CheckRequest(false, "site", "10.0.0.1", "", "", "", Parsed(false))

  /** The check of `LATE` has read the list, and the rows are these. */
  function PastTheList(rows: Rows, now: Time): State {
    Start(map["site" := OPEN_SITE], now)
    .(world := World(map[], rows, map["site" := OPEN_SITE]), visits := map[0 := Visit(LATE, FindingSession)])
  }

  lemma RunThree(shared: bool, s: State, a: Protocol.Action, b: Protocol.Action, c: Protocol.Action)
    ensures Run(shared, s, [a, b, c]) == Step(shared, Step(shared, Step(shared, s, a), b), c)
  {
    hide Step;
    assert [a, b, c][..2] == [a, b] && [a, b][..1] == [a] && [a][..0] == [];
    assert Run(shared, s, [a]) == Step(shared, s, a);
    assert Run(shared, s, [a, b]) == Step(shared, Step(shared, s, a), b);
  }

  lemma ReadsTheList(now: Time)
    ensures var step := CheckStep(0, "visitor-1", 0);
            Run(false, Start(map["site" := OPEN_SITE], now), [StartCheck(0, LATE), step, step]) ==
              PastTheList(map[], now)
  {
    hide Advance, Create, Refresh, SetRisk;
    var s0, step := Start(map["site" := OPEN_SITE], now), CheckStep(0, "visitor-1", 0);
    RunThree(false, s0, StartCheck(0, LATE), step, step);
    var s1 := Step(false, s0, StartCheck(0, LATE));
    assert s1 == s0.(visits := map[0 := Visit(LATE, FindingSite)]);
    assert Step(false, s1, step) == s0.(visits := map[0 := Visit(LATE, CheckingList)]);
  }

  lemma IsServed(rows: Rows, now: Time)
    ensures var step := CheckStep(0, "visitor-1", 0);
            var end := Run(false, PastTheList(rows, now), [step, step, step]);
            end.visits == map[0 := Visit(LATE, Answered(Checked(Allow, "visitor-1", 0)))]
  {
    hide Advance, Listed;
    var s, step := PastTheList(rows, now), CheckStep(0, "visitor-1", 0);
    RunThree(false, s, step, step, step);
    var s1 := Step(false, s, step);
    assert s1 == s.(visits := map[0 := Visit(LATE, Creating)]);
    var s2 := Step(false, s1, step);
    assert s2.visits == map[0 := Visit(LATE, Refreshing("visitor-1"))];
    assert "visitor-1" in s2.world.sessions && s2.world.sessions["visitor-1"].risk == 0;
  }

  /** Such a check: it has read the list when an administrator enters its
      address for good, and is served all the same. */
  lemma LateCheckServed(now: Time)
    ensures var s0, step := Start(map["site" := OPEN_SITE], now), CheckStep(0, "visitor-1", 0);
            var listing := AdminList(Entry("row", "site", "10.0.0.1", "spam", now, None));
            var listed := Run(false, s0, [StartCheck(0, LATE), step, step] + [listing]);
            var end := Run(false, listed, [step, step, step]);
            && Permanent(listed, ("site", "10.0.0.1")) && Permanent(end, ("site", "10.0.0.1"))
            && 0 in end.visits && end.visits[0] == Visit(LATE, Answered(Checked(Allow, "visitor-1", 0)))
  {
    hide Run, Advance, Proceed;
    var s0, step := Start(map["site" := OPEN_SITE], now), CheckStep(0, "visitor-1", 0);
    var entry := Entry("row", "site", "10.0.0.1", "spam", now, None);
    var before := [StartCheck(0, LATE), step, step];
    ReadsTheList(now);
    RunOneMore(false, s0, before, AdminList(entry));
    var listed := Run(false, s0, before + [AdminList(entry)]);
    assert listed == PastTheList(Upsert(map[], {"site"}, entry).0, now);
    IsServed(listed.world.rows, now);
    PermanentRun(false, listed, [step, step, step], ("site", "10.0.0.1"));
  }

  lemma OneFate(v: Visit)
    ensures v.phase.Answered? || Refused(v) || TurnedAway(v) ==> !Ahead(v)
    ensures TurnedAway(v) ==> !Refused(v)
  {
  }

  // -------------------------------------------------- a long address escapes

  /** An address the column does not hold is convicted and served again: 46
      characters forwarded by an automated visitor to a site with both analyzers
      on. Its session is scored 85 and blocked, no entry is made, and the
      next check that names no session is allowed. */
  lemma LongAddressEscapes(now: Time)
    ensures var ip := seq(46, _ => '1');
            var req := CheckRequest(false, "site", ip, AGENT_85, "", "", Parsed(false));
            var w0 := World(map[], map[], map["site" := Site(Active, Some(Analyzer(true, true)))]);
            var (w1, first) := Check(w0, req, "first-id", now);
            var (_, w2, _) := Analyze(w1, FORGETFUL, "first-id", ip, AGENT_85, now, now, "entry-id");
            && first == Checked(Allow, "first-id", 0)
            && "first-id" in w2.sessions && w2.sessions["first-id"].risk == 85 && w2.sessions["first-id"].isBlocked
            && w2.rows == map[]
            && Check(w2, req, "second-id", now).1 == Checked(Allow, "second-id", 0)
  {
    hide HeadlessScore, Analyze, DeepRisk;
    var ip := seq(46, _ => '1');
    var req := CheckRequest(false, "site", ip, AGENT_85, "", "", Parsed(false));
    var w0 := World(map[], map[], map["site" := Site(Active, Some(Analyzer(true, true)))]);
    var w1 := Check(w0, req, "first-id", now).0;
    EightyFive();
    FreshAnalysis(w1, "first-id", ip, AGENT_85, now, now, "entry-id");
    assert Column(ip, IP_WIDTH) == None by {
      assert ip[45] == '1';
    }
  }
}
