/** The score arithmetic of backend/detector/detector.go, without its state. */
module Scoring {
  import opened Basics
  import opened Sessions

  // ---------------------------------------------------------- user agent

  const INDICATORS: seq<string> := ["headless", "headlesschrome", "phantomjs", "selenium",
                                    "webdriver", "puppeteer", "playwright", "cypress"]
  const PLATFORMS: seq<string> := ["windows", "mac", "linux", "android", "iphone", "ipad"]

  function IndicatorScore(ua: string, indicators: seq<string>): int {
    if indicators == [] then 0
    else IndicatorScore(ua, indicators[..|indicators| - 1])
         + (if Contains(ua, indicators[|indicators| - 1]) then 25 else 0)
  }

  function HeadlessScore(userAgent: string): int {
    var ua := ToLower(userAgent);
    var score := IndicatorScore(ua, INDICATORS)
                 + (if |ua| < 20 then 20 else 0)
                 + (if forall p | p in PLATFORMS :: !Contains(ua, p) then 15 else 0);
    if score > 100 then 100 else score
  }

  lemma {:induction false} IndicatorScoreCounts(ua: string, indicators: seq<string>)
    ensures IndicatorScore(ua, indicators) == 25 * |set i | 0 <= i < |indicators| && Contains(ua, indicators[i])|
  {
    var hits := set i | 0 <= i < |indicators| && Contains(ua, indicators[i]);
    if indicators == [] {
      assert hits == {};
    } else {
      var last := |indicators| - 1;
      var before := set i | 0 <= i < last && Contains(ua, indicators[..last][i]);
      IndicatorScoreCounts(ua, indicators[..last]);
      assert hits == before + (if Contains(ua, indicators[last]) then {last} else {});
    }
  }

  /** The score counts each matching indicator once, stays in 0..100, ignores
      letter case, and is zero exactly for a long enough agent that names a
      platform and no automation tool. */
  lemma HeadlessScoreMeaning(userAgent: string)
    ensures var ua := ToLower(userAgent);
            var hits := |set i | 0 <= i < |INDICATORS| && Contains(ua, INDICATORS[i])|;
            var raw := 25 * hits + (if |userAgent| < 20 then 20 else 0)
                       + (if exists p | p in PLATFORMS :: Contains(ua, p) then 0 else 15);
            HeadlessScore(userAgent) == if raw > 100 then 100 else raw
    ensures 0 <= HeadlessScore(userAgent) <= 100
    ensures HeadlessScore(ToLower(userAgent)) == HeadlessScore(userAgent)
    ensures HeadlessScore(userAgent) == 0 <==>
              && |userAgent| >= 20
              && (forall i | 0 <= i < |INDICATORS| :: !Contains(ToLower(userAgent), INDICATORS[i]))
              && (exists p | p in PLATFORMS :: Contains(ToLower(userAgent), p))
  {
    var ua := ToLower(userAgent);
    IndicatorScoreCounts(ua, INDICATORS);
    LowerTwice(userAgent);
    var hits := set i | 0 <= i < |INDICATORS| && Contains(ua, INDICATORS[i]);
    if hits == {} {
      forall i | 0 <= i < |INDICATORS|
        ensures !Contains(ua, INDICATORS[i])
      {
        assert i !in hits;
      }
    }
  }

  lemma OneMoreIndicator(ua: string, names: seq<string>, name: string)
    ensures IndicatorScore(ua, names + [name]) == IndicatorScore(ua, names) + if Contains(ua, name) then 25 else 0
  {
    assert (names + [name])[..|names + [name]| - 1] == names;
  }

  /** Which names are looked for, and what they, a short agent and one without
      a platform weigh. */
  lemma AgentWeights(userAgent: string)
    ensures var ua := ToLower(userAgent);
            var raw := (if Contains(ua, "headless") then 25 else 0) + (if Contains(ua, "headlesschrome") then 25 else 0)
                       + (if Contains(ua, "phantomjs") then 25 else 0) + (if Contains(ua, "selenium") then 25 else 0)
                       + (if Contains(ua, "webdriver") then 25 else 0) + (if Contains(ua, "puppeteer") then 25 else 0)
                       + (if Contains(ua, "playwright") then 25 else 0) + (if Contains(ua, "cypress") then 25 else 0)
                       + (if |userAgent| < 20 then 20 else 0)
                       + (if || Contains(ua, "windows") || Contains(ua, "mac") || Contains(ua, "linux")
                             || Contains(ua, "android") || Contains(ua, "iphone") || Contains(ua, "ipad")
                          then 0 else 15);
            HeadlessScore(userAgent) == if raw > 100 then 100 else raw
  {
    hide Contains, IndicatorScore;
    var ua := ToLower(userAgent);
    NoIndicator(ua);
    OneMoreIndicator(ua, [], "headless");
    OneMoreIndicator(ua, ["headless"], "headlesschrome");
    OneMoreIndicator(ua, ["headless", "headlesschrome"], "phantomjs");
    OneMoreIndicator(ua, ["headless", "headlesschrome", "phantomjs"], "selenium");
    var four := ["headless", "headlesschrome", "phantomjs", "selenium"];
    OneMoreIndicator(ua, four, "webdriver");
    OneMoreIndicator(ua, four + ["webdriver"], "puppeteer");
    OneMoreIndicator(ua, four + ["webdriver", "puppeteer"], "playwright");
    OneMoreIndicator(ua, four + ["webdriver", "puppeteer", "playwright"], "cypress");
    Spelled(four);
    PlatformNames(ua);
  }

  lemma NoIndicator(ua: string)
    ensures IndicatorScore(ua, []) == 0
  {
  }

  lemma Spelled(four: seq<string>)
    requires four == ["headless", "headlesschrome", "phantomjs", "selenium"]
    ensures ["headless"] == [] + ["headless"] && ["headless", "headlesschrome"] == ["headless"] + ["headlesschrome"]
    ensures ["headless", "headlesschrome", "phantomjs"] == ["headless", "headlesschrome"] + ["phantomjs"]
    ensures four == ["headless", "headlesschrome", "phantomjs"] + ["selenium"]
    ensures four + ["webdriver", "puppeteer"] == four + ["webdriver"] + ["puppeteer"]
    ensures four + ["webdriver", "puppeteer", "playwright"] == four + ["webdriver", "puppeteer"] + ["playwright"]
    ensures INDICATORS == four + ["webdriver", "puppeteer", "playwright"] + ["cypress"]
  {
  }

  lemma PlatformNames(ua: string)
    ensures (forall p | p in PLATFORMS :: !Contains(ua, p)) <==>
              !(|| Contains(ua, "windows") || Contains(ua, "mac") || Contains(ua, "linux")
                || Contains(ua, "android") || Contains(ua, "iphone") || Contains(ua, "ipad"))
  {
    assert PLATFORMS[0] == "windows" && PLATFORMS[1] == "mac" && PLATFORMS[2] == "linux";
    assert PLATFORMS[3] == "android" && PLATFORMS[4] == "iphone" && PLATFORMS[5] == "ipad";
  }

  lemma ContainsPart(s: string, whole: string, part: string)
    requires part <= whole && Contains(s, whole)
    ensures Contains(s, part)
  {
    var i :| 0 <= i <= |s| && OccursAt(s, whole, i);
    assert s[i..i + |part|] == s[i..i + |whole|][..|part|];
    assert OccursAt(s, part, i);
  }

  /** Headless Chrome matches two indicators. */
  lemma HeadlessChromeScoresTwice(userAgent: string)
    requires Contains(ToLower(userAgent), "headlesschrome")
    ensures HeadlessScore(userAgent) >= 50
  {
    var ua := ToLower(userAgent);
    assert "headless" == "headlesschrome"[..8];
    ContainsPart(ua, "headlesschrome", "headless");
    HeadlessScoreMeaning(userAgent);
    var hits := set i | 0 <= i < |INDICATORS| && Contains(ua, INDICATORS[i]);
    assert INDICATORS[0] == "headless" && INDICATORS[1] == "headlesschrome";
    assert {0, 1} <= hits;
    SubsetSize({0, 1}, hits);
  }

  lemma LacksChar(s: string, part: string, c: char)
    requires c in part && c !in s
    ensures !Contains(s, part)
  {
    var k :| 0 <= k < |part| && part[k] == c;
    forall i | 0 <= i <= |s| - |part|
      ensures !OccursAt(s, part, i)
    {
      assert s[i..i + |part|][k] == s[i + k];
    }
  }

  lemma HasPart(before: string, part: string, after: string)
    ensures Contains(before + part + after, part)
  {
    assert OccursAt(before + part + after, part, |before|);
  }

  /** Two automation tools: on no platform, on a Mac in a short agent, on no
      platform in a short agent. */
  const AGENT_65 := "selenium cypress runner"
  const AGENT_70 := "cypressseleniummac"
  const AGENT_85 := "seleniumcypress"

  /** The characters of these agents. */
  predicate PlainChar(c: char) {
    c == ' ' || ('a' <= c <= 'z' && c !in "hwtxjo")
  }

  lemma PlainAgent(ua: string)
    requires forall i | 0 <= i < |ua| :: PlainChar(ua[i])
    ensures ToLower(ua) == ua && 'h' !in ua && 'w' !in ua && 't' !in ua && 'x' !in ua && 'o' !in ua
  {
  }

  lemma SixtyFive()
    ensures HeadlessScore(AGENT_65) == 65
  {
    hide Contains, IndicatorScore, PlainChar;
    PlainSixtyFive();
    PlainAgent(AGENT_65);
    PartsOfSixtyFive();
    OnlySeleniumAndCypress(AGENT_65);
    NoPlatform(AGENT_65);
  }

  lemma PartsOfSixtyFive()
    ensures Contains(AGENT_65, "selenium") && Contains(AGENT_65, "cypress") && 'a' !in AGENT_65
  {
    hide Contains;
    assert AGENT_65 == "" + "selenium" + " cypress runner" && AGENT_65 == "selenium " + "cypress" + " runner";
    HasPart("", "selenium", " cypress runner");
    HasPart("selenium ", "cypress", " runner");
  }

  lemma NoPlatform(ua: string)
    requires 'w' !in ua && 'a' !in ua && 'x' !in ua && 'h' !in ua
    ensures forall p | p in PLATFORMS :: !Contains(ua, p)
  {
    LacksChar(ua, "windows", 'w');
    LacksChar(ua, "mac", 'a');
    LacksChar(ua, "linux", 'x');
    LacksChar(ua, "android", 'a');
    LacksChar(ua, "iphone", 'h');
    LacksChar(ua, "ipad", 'a');
  }

  lemma PlainSixtyFive()
    ensures forall i | 0 <= i < |AGENT_65| :: PlainChar(AGENT_65[i])
  {
  }

  lemma PlainSeventy()
    ensures forall i | 0 <= i < |AGENT_70| :: PlainChar(AGENT_70[i])
  {
  }

  lemma Seventy()
    ensures HeadlessScore(AGENT_70) == 70
  {
    hide Contains, IndicatorScore, PlainChar;
    PlainSeventy();
    PlainAgent(AGENT_70);
    PartsOfSeventy();
    OnlySeleniumAndCypress(AGENT_70);
  }

  lemma PartsOfSeventy()
    ensures Contains(AGENT_70, "selenium") && Contains(AGENT_70, "cypress") && Contains(AGENT_70, "mac")
  {
    hide Contains;
    assert AGENT_70 == "" + "cypress" + "seleniummac" && AGENT_70 == "cypress" + "selenium" + "mac";
    assert AGENT_70 == "cypressselenium" + "mac" + "";
    HasPart("", "cypress", "seleniummac");
    HasPart("cypress", "selenium", "mac");
    HasPart("cypressselenium", "mac", "");
  }

  lemma EightyFive()
    ensures HeadlessScore(AGENT_85) == 85
  {
    hide Contains, IndicatorScore, PlainChar;
    PlainEightyFive();
    PlainAgent(AGENT_85);
    PartsOfEightyFive();
    OnlySeleniumAndCypress(AGENT_85);
    NoPlatform(AGENT_85);
  }

  lemma PlainEightyFive()
    ensures forall i | 0 <= i < |AGENT_85| :: PlainChar(AGENT_85[i])
  {
  }

  lemma PartsOfEightyFive()
    ensures Contains(AGENT_85, "selenium") && Contains(AGENT_85, "cypress") && 'a' !in AGENT_85
  {
    hide Contains;
    assert AGENT_85 == "" + "selenium" + "cypress" && AGENT_85 == "selenium" + "cypress" + "";
    HasPart("", "selenium", "cypress");
    HasPart("selenium", "cypress", "");
  }

  lemma OnlySeleniumAndCypress(ua: string)
    requires 'h' !in ua && 'w' !in ua && 't' !in ua && Contains(ua, "selenium") && Contains(ua, "cypress")
    ensures IndicatorScore(ua, INDICATORS) == 50
  {
    LacksChar(ua, "headless", 'h');
    LacksChar(ua, "headlesschrome", 'h');
    LacksChar(ua, "phantomjs", 'h');
    LacksChar(ua, "webdriver", 'w');
    LacksChar(ua, "puppeteer", 't');
    LacksChar(ua, "playwright", 'w');
    IndicatorScoreCounts(ua, INDICATORS);
    var hits := set i | 0 <= i < |INDICATORS| && Contains(ua, INDICATORS[i]);
    assert INDICATORS[3] == "selenium" && INDICATORS[7] == "cypress";
    assert hits == {3, 7};
  }

  lemma SixtyFiveAndSeventy()
    ensures HeadlessScore(AGENT_65) == 65 && HeadlessScore(AGENT_70) == 70
  {
    SixtyFive();
    Seventy();
  }

  // ------------------------------------------------------ request volume

  type Calls = map<string, seq<Time>>

  function Recent(ts: seq<Time>, now: Time): seq<Time> {
    if ts == [] then []
    else Recent(ts[..|ts| - 1], now) + (if now - ts[|ts| - 1] < MINUTE then [ts[|ts| - 1]] else [])
  }

  function VolumeScore(count: int): int {
    if count > 100 then 100 else if count > 60 then 50 else if count > 30 then 20 else 0
  }

  function Stored(m: Calls, ip: string): seq<Time> {
    if ip in m then m[ip] else []
  }

  /** `rateLimitScore`: prune the list of the address, add this call, score the count. */
  function Record(m: Calls, ip: string, now: Time): (Calls, int) {
    var clean := Recent(Stored(m, ip), now) + [now];
    (m[ip := clean], VolumeScore(|clean|))
  }

  datatype Call = Call(ip: string, time: Time)

  function Recorded(calls: seq<Call>): Calls {
    if calls == [] then map[]
    else var c := calls[|calls| - 1]; Record(Recorded(calls[..|calls| - 1]), c.ip, c.time).0
  }

  /** Every call of one address, oldest first. */
  function History(calls: seq<Call>, ip: string): seq<Time> {
    if calls == [] then []
    else
      var before, c := History(calls[..|calls| - 1], ip), calls[|calls| - 1];
      if c.ip == ip then before + [c.time] else before
  }

  ghost predicate OrderedCalls(calls: seq<Call>) {
    forall i, j | 0 <= i < j < |calls| :: calls[i].time <= calls[j].time
  }

  lemma {:induction false} RecentTwice(ts: seq<Time>, t1: Time, t2: Time)
    requires t1 <= t2
    ensures Recent(Recent(ts, t1), t2) == Recent(ts, t2)
  {
    if ts != [] {
      var init, last := ts[..|ts| - 1], ts[|ts| - 1];
      RecentTwice(init, t1, t2);
      if t1 - last < MINUTE {
        var kept := Recent(init, t1) + [last];
        assert kept[..|kept| - 1] == Recent(init, t1);
      } else {
        assert Recent(init, t1) + [] == Recent(init, t1);
        assert Recent(init, t2) + [] == Recent(init, t2);
      }
    }
  }

  lemma RecentNow(ts: seq<Time>, now: Time)
    ensures Recent(ts + [now], now) == Recent(ts, now) + [now]
  {
    assert (ts + [now])[..|ts|] == ts;
  }

  lemma {:induction false} HistoryTimes(calls: seq<Call>, ip: string)
    requires OrderedCalls(calls)
    ensures SortedTimes(History(calls, ip))
    ensures forall t | t in History(calls, ip) :: exists i :: 0 <= i < |calls| && calls[i] == Call(ip, t)
  {
    if calls != [] {
      var init, c := calls[..|calls| - 1], calls[|calls| - 1];
      HistoryTimes(init, ip);
      forall t | t in History(calls, ip)
        ensures exists i :: 0 <= i < |calls| && calls[i] == Call(ip, t)
      {
        if t in History(init, ip) {
          var i :| 0 <= i < |init| && init[i] == Call(ip, t);
          assert calls[i] == Call(ip, t);
        } else {
          assert calls[|calls| - 1] == Call(ip, t);
        }
      }
      var h := History(init, ip);
      forall k | 0 <= k < |h|
        ensures h[k] <= c.time
      {
        var i :| 0 <= i < |init| && init[i] == Call(ip, h[k]);
        assert calls[i] == init[i];
      }
    }
  }

  lemma RecentOfSorted(ts: seq<Time>, now: Time, k: nat)
    requires SortedTimes(ts) && ts != [] && k < |ts|
    requires Recent(ts[..|ts| - 1], now) == ts[k..|ts| - 1]
    requires forall i | 0 <= i < |ts| - 1 :: i < k <==> now - ts[i] >= MINUTE
    ensures now - ts[|ts| - 1] < MINUTE ==> Recent(ts, now) == ts[k..]
    ensures now - ts[|ts| - 1] >= MINUTE ==> Recent(ts, now) == [] && k == |ts| - 1
  {
    if now - ts[|ts| - 1] < MINUTE {
      assert ts[k..|ts| - 1] + [ts[|ts| - 1]] == ts[k..];
    }
  }

  /** A sorted list is pruned to a suffix: what is dropped is at least a
      minute old, what is kept is not. */
  lemma {:induction false} RecentIsSuffix(ts: seq<Time>, now: Time) returns (k: nat)
    requires SortedTimes(ts)
    ensures k <= |ts| && Recent(ts, now) == ts[k..]
    ensures forall i | 0 <= i < |ts| :: i < k <==> now - ts[i] >= MINUTE
  {
    hide Recent;
    if ts == [] {
      NothingRecent(now);
      return 0;
    }
    var n := |ts| - 1;
    var init := ts[..n];
    k := RecentIsSuffix(init, now);
    assert init[k..] == ts[k..n];
    assert forall i | 0 <= i < n :: init[i] == ts[i];
    RecentOfSorted(ts, now, k);
    if now - ts[n] >= MINUTE {
      assert k == n;
      k := n + 1;
      assert ts[n + 1..] == [];
    }
  }

  lemma NothingRecent(now: Time)
    ensures Recent([], now) == []
  {
  }

  lemma WindowStep(h: seq<Time>, stored: seq<Time>, now: Time)
    requires h != [] ==> h[|h| - 1] <= now
    requires stored == if h == [] then [] else Recent(h, h[|h| - 1])
    ensures Recent(stored, now) + [now] == Recent(h + [now], now)
  {
    if h != [] {
      RecentTwice(h, h[|h| - 1], now);
    }
    RecentNow(h, now);
  }

  /** After any run of calls on a clock that never runs backwards, the list of
      an address is exactly the part of its whole history that was younger
      than a minute at its last call. */
  lemma {:induction false} WindowIsRecentHistory(calls: seq<Call>, ip: string)
    requires OrderedCalls(calls)
    ensures var h := History(calls, ip);
            && (ip in Recorded(calls) <==> h != [])
            && (h != [] ==> Recorded(calls)[ip] == Recent(h, h[|h| - 1]))
  {
    hide Recent, VolumeScore;
    if calls != [] {
      var init, c := calls[..|calls| - 1], calls[|calls| - 1];
      WindowIsRecentHistory(init, ip);
      if c.ip == ip {
        var h := History(init, ip);
        HistoryTimes(init, ip);
        if h != [] {
          var i :| 0 <= i < |init| && init[i] == Call(ip, h[|h| - 1]);
          assert calls[i] == init[i];
        }
        WindowStep(h, Stored(Recorded(init), ip), c.time);
      }
    }
  }

  /** The score of one more call is the step function of how many calls of the
      address, this one included, fall in the last minute; no other address moves. */
  lemma VolumeOfOneMoreCall(calls: seq<Call>, ip: string, now: Time)
    requires OrderedCalls(calls + [Call(ip, now)])
    ensures var h := History(calls, ip) + [now];
            var (m, score) := Record(Recorded(calls), ip, now);
            var n := |Recent(h, now)|;
            && score == (if n > 100 then 100 else if n > 60 then 50 else if n > 30 then 20 else 0)
            && (forall other | other != ip :: Stored(m, other) == Stored(Recorded(calls), other))
  {
    var all := calls + [Call(ip, now)];
    assert all[..|calls|] == calls;
    assert forall i | 0 <= i < |calls| :: all[i] == calls[i];
    WindowIsRecentHistory(all, ip);
    RecentNow(History(calls, ip), now);
  }

  // ------------------------------------------------- behavioural evidence

  datatype Counters = Counters(moves: real, clicks: real, scrolls: real, keys: real, duration: real)

  function NumberAt(fields: map<string, Json>, key: string): real {
    if key in fields && fields[key].Number? then fields[key].n else 0.0
  }

  function TextAt(fields: map<string, Json>, key: string): string {
    if key in fields && fields[key].Text? then fields[key].s else ""
  }

  function ObjectAt(m: Metrics, key: string): Option<map<string, Json>> {
    if key in m && m[key].Object? then Some(m[key].fields) else None
  }

  function CountersOf(fields: map<string, Json>): Counters {
    Counters(NumberAt(fields, "mouse_move"), NumberAt(fields, "click"), NumberAt(fields, "scroll"),
             NumberAt(fields, "keydown"), NumberAt(fields, "duration_sec"))
  }

  function EventsPerMinute(c: Counters): real
    requires c.duration > 0.0
  {
    (c.moves + c.clicks + c.scrolls + c.keys) / (c.duration / 60.0)
  }

  predicate Hasty(c: Counters) { c.moves > 1000.0 && c.duration < 30.0 }
  predicate ScrollsOnly(c: Counters) { c.clicks == 0.0 && c.scrolls > 20.0 }
  predicate MovesOnly(c: Counters) { c.keys == 0.0 && c.moves > 100.0 }
  predicate HighRate(c: Counters) { c.duration > 0.0 && EventsPerMinute(c) > 300.0 }
  predicate LowRate(c: Counters) { c.duration > 0.0 && EventsPerMinute(c) < 5.0 && c.duration > 60.0 }

  function CounterEvidence(c: Counters): int {
    (if Hasty(c) then 15 else 0) + (if ScrollsOnly(c) then 25 else 0) + (if MovesOnly(c) then 20 else 0)
    + (if HighRate(c) then 15 else 0) + (if LowRate(c) then 30 else 0)
  }

  predicate SoftwareRenderer(fingerprint: map<string, Json>) {
    Contains(ToLower(TextAt(fingerprint, "webgl_renderer")), "swiftshader")
  }

  predicate LoadsTooFast(timing: map<string, Json>) {
    0.0 < NumberAt(timing, "load_time_ms") < 100.0
  }

  function Evidence(m: Metrics): int {
    var counters, fingerprint, timing := ObjectAt(m, "counters"), ObjectAt(m, "fingerprint"), ObjectAt(m, "timing");
    (if counters.Some? then CounterEvidence(CountersOf(counters.value)) else 0)
    + (if fingerprint.Some? && SoftwareRenderer(fingerprint.value) then 25 else 0)
    + (if timing.Some? && LoadsTooFast(timing.value) then 20 else 0)
  }

  function Clamp(risk: int): int {
    if risk < 0 then 0 else if risk > 100 then 100 else risk
  }

  /** `DeepFilter`: nothing is added, and nothing clamped, when there are no metrics. */
  function DeepRisk(metrics: Option<Metrics>, current: int): int {
    if metrics.None? || |metrics.value| == 0 then current else Clamp(current + Evidence(metrics.value))
  }

  /** The two rate rules exclude each other, and so do haste and a low rate:
      no counters weigh more than 75. */
  lemma CounterEvidenceBound(c: Counters)
    ensures 0 <= CounterEvidence(c) <= 75
    ensures !(HighRate(c) && LowRate(c)) && !(Hasty(c) && LowRate(c))
  {
  }

  /** Deep filtering adds at most 120 ... */
  lemma EvidenceBound(m: Metrics)
    ensures 0 <= Evidence(m) <= 120
  {
    var counters := ObjectAt(m, "counters");
    if counters.Some? {
      CounterEvidenceBound(CountersOf(counters.value));
    }
  }

  lemma SwiftShaderExample(fingerprint: map<string, Json>)
    requires TextAt(fingerprint, "webgl_renderer") == "swiftshader"
    ensures SoftwareRenderer(fingerprint)
  {
    var name := "swiftshader";
    assert ToLower(name) == name;
    assert OccursAt(name, name, 0);
  }

  /** ... and some metrics do add 120. */
  lemma EvidenceBoundReached()
    ensures exists m: Metrics :: Evidence(m) == 120
  {
    var counters: map<string, Json> := map["mouse_move" := Number(2000.0), "scroll" := Number(21.0),
        "duration_sec" := Number(20.0)];
    var fingerprint: map<string, Json> := map["webgl_renderer" := Text("swiftshader")];
    var timing: map<string, Json> := map["load_time_ms" := Number(50.0)];
    var m: Metrics := map["counters" := Object(counters), "fingerprint" := Object(fingerprint),
                          "timing" := Object(timing)];
    var c := CountersOf(counters);
    assert c == Counters(2000.0, 0.0, 21.0, 0.0, 20.0);
    assert EventsPerMinute(c) == 2021.0 * 3.0;
    SwiftShaderExample(fingerprint);
    assert Evidence(m) == 120;
  }

  /** A page that loads within 50 ms weighs 20. */
  lemma FastPage()
    ensures var timing: map<string, Json> := map["load_time_ms" := Number(50.0)];
            Evidence(map["timing" := Object(timing)]) == 20
  {
    var timing: map<string, Json> := map["load_time_ms" := Number(50.0)];
    assert NumberAt(timing, "load_time_ms") == 50.0;
  }

  /** No rule of the deep filter applies to the metrics. */
  predicate NoRuleFires(m: Metrics) {
    var counters, fingerprint, timing := ObjectAt(m, "counters"), ObjectAt(m, "fingerprint"), ObjectAt(m, "timing");
    && (counters.Some? ==>
          var c := CountersOf(counters.value);
          !Hasty(c) && !ScrollsOnly(c) && !MovesOnly(c) && !HighRate(c) && !LowRate(c))
    && (fingerprint.Some? ==> !SoftwareRenderer(fingerprint.value))
    && (timing.Some? ==> !LoadsTooFast(timing.value))
  }

  /** Any rule that fires weighs at least 15. */
  lemma NoEvidenceIff(m: Metrics)
    ensures Evidence(m) == 0 <==> NoRuleFires(m)
    ensures Evidence(m) == 0 || Evidence(m) >= 15
  {
    hide Contains, ToLower, NumberAt, TextAt, EventsPerMinute;
  }

  lemma EmptyMetrics(m: Metrics)
    ensures |m| == 0 ==> Evidence(m) == 0
  {
    if |m| == 0 {
      assert m == map[];
    }
  }

  // ------------------------------------------ what every rule weighs

  /** The number at that place of the metrics, 0 where there is none. */
  predicate NumberIn(m: Metrics, part: string, key: string, x: real) {
    if part in m && m[part].Object? && key in m[part].fields && m[part].fields[key].Number?
    then m[part].fields[key].n == x else x == 0.0
  }

  predicate TextIn(m: Metrics, part: string, key: string, s: string) {
    if part in m && m[part].Object? && key in m[part].fields && m[part].fields[key].Text?
    then m[part].fields[key].s == s else s == ""
  }

  lemma Quotient(a: real, b: real, bound: real)
    requires b > 0.0
    ensures a / b > bound <==> a > bound * b
    ensures a / b < bound <==> a < bound * b
  {
    var q := a / b;
    assert a == q * b;
    assert a - bound * b == (q - bound) * b;
    if q > bound {
      assert (q - bound) * b > 0.0;
    } else if q < bound {
      assert (bound - q) * b > 0.0;
    }
  }

  lemma RateAbove(events: real, duration: real)
    requires duration > 0.0
    ensures events / (duration / 60.0) > 300.0 <==> events > 5.0 * duration
    ensures events / (duration / 60.0) < 5.0 <==> 12.0 * events < duration
  {
    Quotient(events, duration / 60.0, 300.0);
    Quotient(events, duration / 60.0, 5.0);
  }

  lemma CountersWeigh(c: Counters)
    ensures var events := c.moves + c.clicks + c.scrolls + c.keys;
            CounterEvidence(c) ==
              (if c.moves > 1000.0 && c.duration < 30.0 then 15 else 0)
              + (if c.clicks == 0.0 && c.scrolls > 20.0 then 25 else 0)
              + (if c.keys == 0.0 && c.moves > 100.0 then 20 else 0)
              + (if c.duration > 0.0 && events > 5.0 * c.duration then 15 else 0)
              + (if c.duration > 60.0 && 12.0 * events < c.duration then 30 else 0)
  {
    if c.duration > 0.0 {
      RateAbove(c.moves + c.clicks + c.scrolls + c.keys, c.duration);
    }
  }

  /** The second filter on the decoded metrics: which numbers and which text it
      reads, when each of its seven rules fires and what that adds, whatever else
      the metrics hold. A part that is missing counts as zeros. */
  lemma WeightsOfMetrics(m: Metrics, current: int, moves: real, clicks: real, scrolls: real, keys: real, duration: real,
                         renderer: string, loadTime: real)
    requires NumberIn(m, "counters", "mouse_move", moves) && NumberIn(m, "counters", "click", clicks)
    requires NumberIn(m, "counters", "scroll", scrolls) && NumberIn(m, "counters", "keydown", keys)
    requires NumberIn(m, "counters", "duration_sec", duration)
    requires TextIn(m, "fingerprint", "webgl_renderer", renderer) && NumberIn(m, "timing", "load_time_ms", loadTime)
    ensures var events := moves + clicks + scrolls + keys;
            var raised := current
                          + (if moves > 1000.0 && duration < 30.0 then 15 else 0)
                          + (if clicks == 0.0 && scrolls > 20.0 then 25 else 0)
                          + (if keys == 0.0 && moves > 100.0 then 20 else 0)
                          + (if duration > 0.0 && events > 5.0 * duration then 15 else 0)
                          + (if duration > 60.0 && 12.0 * events < duration then 30 else 0)
                          + (if Contains(ToLower(renderer), "swiftshader") then 25 else 0)
                          + (if 0.0 < loadTime < 100.0 then 20 else 0);
            DeepRisk(Some(m), current) ==
              if m == map[] then current else if raised < 0 then 0 else if raised > 100 then 100 else raised
  {
    hide CounterEvidence, Contains;
    CountersWeigh(Counters(moves, clicks, scrolls, keys, duration));
    NothingContains("swiftshader");
    if ObjectAt(m, "counters").Some? {
      assert CountersOf(ObjectAt(m, "counters").value) == Counters(moves, clicks, scrolls, keys, duration);
    }
  }

  lemma NothingContains(part: string)
    requires part != ""
    ensures !Contains(ToLower(""), part)
  {
  }

  function Tracked(moves: real, clicks: real, scrolls: real, keys: real, duration: real): Metrics {
    map["counters" := Object(map["mouse_move" := Number(moves), "click" := Number(clicks), "scroll" := Number(scrolls),
                                 "keydown" := Number(keys), "duration_sec" := Number(duration)])]
  }

  lemma TrackedWeighs(current: int, moves: real, clicks: real, scrolls: real, keys: real, duration: real)
    ensures var events := moves + clicks + scrolls + keys;
            var raised := current
                          + (if moves > 1000.0 && duration < 30.0 then 15 else 0)
                          + (if clicks == 0.0 && scrolls > 20.0 then 25 else 0)
                          + (if keys == 0.0 && moves > 100.0 then 20 else 0)
                          + (if duration > 0.0 && events > 5.0 * duration then 15 else 0)
                          + (if duration > 60.0 && 12.0 * events < duration then 30 else 0);
            DeepRisk(Some(Tracked(moves, clicks, scrolls, keys, duration)), current) ==
              if raised < 0 then 0 else if raised > 100 then 100 else raised
  {
    hide Contains, ToLower, DeepRisk;
    NothingContains("swiftshader");
    WeightsOfMetrics(Tracked(moves, clicks, scrolls, keys, duration), current, moves, clicks, scrolls, keys, duration,
                     "", 0.0);
  }

  /** Each rule of the counters alone, on top of a risk of 10, and two together. */
  lemma RulesOneByOne()
    ensures DeepRisk(Some(Tracked(1001.0, 1.0, 0.0, 1.0, 0.0)), 10) == 25
    ensures DeepRisk(Some(Tracked(0.0, 0.0, 21.0, 1.0, 20.0)), 10) == 35
    ensures DeepRisk(Some(Tracked(150.0, 3.0, 0.0, 0.0, 60.0)), 10) == 30
    ensures DeepRisk(Some(Tracked(200.0, 1.0, 0.0, 1.0, 30.0)), 10) == 25
    ensures DeepRisk(Some(Tracked(0.0, 1.0, 0.0, 1.0, 90.0)), 10) == 40
    ensures DeepRisk(Some(Tracked(150.0, 0.0, 21.0, 0.0, 60.0)), 10) == 55
  {
    hide DeepRisk, Tracked;
    TrackedWeighs(10, 1001.0, 1.0, 0.0, 1.0, 0.0);
    TrackedWeighs(10, 0.0, 0.0, 21.0, 1.0, 20.0);
    TrackedWeighs(10, 150.0, 3.0, 0.0, 0.0, 60.0);
    TrackedWeighs(10, 200.0, 1.0, 0.0, 1.0, 30.0);
    TrackedWeighs(10, 0.0, 1.0, 0.0, 1.0, 90.0);
    TrackedWeighs(10, 150.0, 0.0, 21.0, 0.0, 60.0);
  }

  lemma DeepRiskMonotone(metrics: Option<Metrics>, low: int, high: int)
    requires low <= high
    ensures DeepRisk(metrics, low) <= DeepRisk(metrics, high)
    ensures 0 <= low <= 100 ==> low <= DeepRisk(metrics, low) <= 100 && DeepRisk(metrics, low) <= low + 120
  {
    if metrics.Some? {
      EvidenceBound(metrics.value);
    }
  }

  /** More than a thousand moves within half a minute always fires the
      high-rate rule and never the low-rate rule. */
  lemma FastMovesAreHighRate(c: Counters)
    requires c.moves >= 0.0 && c.clicks >= 0.0 && c.scrolls >= 0.0 && c.keys >= 0.0
    requires c.moves > 1000.0 && 0.0 < c.duration < 30.0
    ensures Hasty(c) && HighRate(c) && !LowRate(c)
    ensures CounterEvidence(c) >= 30
  {
    Quotient(c.moves + c.clicks + c.scrolls + c.keys, c.duration / 60.0, 300.0);
  }
}
