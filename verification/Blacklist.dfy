/** The blacklist table of backend/storage/blacklist.go, one row for each
    (site, address) as the unique key of the table demands, and the site table
    it refers to. */
module Blacklist {
  import opened Basics
  import opened Sites

  datatype Entry = Entry(
    id: string, siteId: string, ip: string, reason: string, createdAt: Time, expiresAt: Option<Time>)

  type Pair = (string, string)

  type Rows = map<Pair, Entry>

  predicate Unexpired(expiresAt: Option<Time>, now: Time) {
    expiresAt.None? || expiresAt.value > now
  }

  /** The entry as it is sent to the table: the id and the creation time are
      filled in when the caller left them out. */
  function Stamped(e: Entry, freshId: string, now: Time): Entry {
    e.(id := if e.id == "" then freshId else e.id,
       createdAt := if e.createdAt == ZERO_TIME then now else e.createdAt)
  }

  /** The width of the address column. */
  const IP_WIDTH: nat := 45

  /** Insert, or on a conflict replace reason and expiry only. The statement
      fails for an address the column refuses and for a site that is gone. */
  function Upsert(rows: Rows, siteIds: set<string>, e: Entry): (Rows, Result<()>) {
    var ip := Column(e.ip, IP_WIDTH);
    if ip.None? then (rows, Err(ValueRefused))
    else if e.siteId !in siteIds then (rows, Err(NoSuchSite))
    else
      var key := (e.siteId, ip.value);
      (if key in rows then rows[key := rows[key].(reason := e.reason, expiresAt := e.expiresAt)]
       else rows[key := e.(ip := ip.value)],
       Ok(()))
  }

  function Delete(rows: Rows, siteId: string, ip: string): Rows {
    rows - {(siteId, ip)}
  }

  /** Deleting a site cascades to its entries. */
  function Cascade(rows: Rows, siteId: string): Rows {
    map key | key in rows && key.0 != siteId :: rows[key]
  }

  /** What the schema promises of every row. */
  ghost predicate RowsFit(rows: Rows, siteIds: set<string>) {
    forall key | key in rows :: key.0 in siteIds && Fits(key.1, IP_WIDTH)
  }

  lemma StatementsKeepRowsFit(rows: Rows, siteIds: set<string>, e: Entry, siteId: string, ip: string)
    requires RowsFit(rows, siteIds)
    ensures RowsFit(Upsert(rows, siteIds, e).0, siteIds)
    ensures RowsFit(Delete(rows, siteId, ip), siteIds)
    ensures RowsFit(Cascade(rows, siteId), siteIds - {siteId})
    ensures RowsFit(rows, siteIds + {siteId})
  {
  }

  /** A pair that a row can be stored under. */
  predicate Listable(siteIds: set<string>, pair: Pair) {
    pair.0 in siteIds && Fits(pair.1, IP_WIDTH)
  }

  predicate Listed(rows: Rows, siteId: string, ip: string, now: Time) {
    (siteId, ip) in rows && Unexpired(rows[(siteId, ip)].expiresAt, now)
  }

  /** The rows `ListBlacklist` selects. */
  function ListedPairs(rows: Rows, siteId: string, now: Time): set<Pair> {
    set key | key in rows && key.0 == siteId && Unexpired(rows[key].expiresAt, now)
  }

  // ------------------------------------------------------ operation log

  datatype Op =
    | Opened(siteId: string)
    | Dropped(siteId: string)
    | Added(entry: Entry)
    | Removed(siteId: string, ip: string)

  /** The sites that exist after a log. */
  function SitesOf(log: seq<Op>): set<string> {
    if log == [] then {}
    else
      var before, op := SitesOf(log[..|log| - 1]), log[|log| - 1];
      if op.Opened? then before + {op.siteId} else if op.Dropped? then before - {op.siteId} else before
  }

  function Replay(log: seq<Op>): Rows {
    if log == [] then map[]
    else
      var rows, op := Replay(log[..|log| - 1]), log[|log| - 1];
      match op
      case Opened(_) => rows
      case Dropped(siteId) => Cascade(rows, siteId)
      case Added(entry) => Upsert(rows, SitesOf(log[..|log| - 1]), entry).0
      case Removed(siteId, ip) => Delete(rows, siteId, ip)
  }

  /** The operation bears on the pair: an addition only if it succeeds. */
  predicate On(siteIds: set<string>, op: Op, key: Pair) {
    match op
    case Opened(_) => false
    case Dropped(siteId) => key.0 == siteId
    case Added(entry) => entry.siteId in siteIds && entry.siteId == key.0 && Column(entry.ip, IP_WIDTH) == Some(key.1)
    case Removed(siteId, ip) => (siteId, ip) == key
  }

  /** The last operation on a pair. */
  function LastOn(log: seq<Op>, key: Pair): Option<Op> {
    if log == [] then None
    else
      var before, op := log[..|log| - 1], log[|log| - 1];
      if On(SitesOf(before), op, key) then Some(op) else LastOn(before, key)
  }

  /** The addition that created the row a pair has now: the first one after
      the pair was last absent. */
  function CreatedBy(log: seq<Op>, key: Pair): Option<Entry> {
    if log == [] then None
    else
      var before, op := log[..|log| - 1], log[|log| - 1];
      if !On(SitesOf(before), op, key) then CreatedBy(before, key)
      else if !op.Added? then None
      else if CreatedBy(before, key).Some? then CreatedBy(before, key)
      else Some(op.entry)
  }

  /** Every row is the last addition's verdict under the first addition's identity,
      and a pair whose last operation took it away (or that had none) has no row. */
  lemma {:induction false} ReplayMeaning(log: seq<Op>, key: Pair)
    ensures key in Replay(log) <==> LastOn(log, key).Some? && LastOn(log, key).value.Added?
    ensures key in Replay(log) <==> CreatedBy(log, key).Some?
    ensures key in Replay(log) ==>
              var row, last, first := Replay(log)[key], LastOn(log, key).value.entry, CreatedBy(log, key).value;
              && (row.siteId, row.ip) == key
              && row.reason == last.reason && row.expiresAt == last.expiresAt
              && row.id == first.id && row.createdAt == first.createdAt
  {
    if log != [] {
      ReplayMeaning(log[..|log| - 1], key);
    }
  }

  /** `IsBlacklisted` and `ListBlacklist` both say: the last operation on the
      pair was an addition that has not expired. */
  lemma AnswersFollowTheLog(log: seq<Op>, siteId: string, ip: string, now: Time)
    ensures var last := LastOn(log, (siteId, ip));
            && (Listed(Replay(log), siteId, ip, now)
                <==> last.Some? && last.value.Added?
                     && (last.value.entry.expiresAt == None || now < last.value.entry.expiresAt.value))
            && (Listed(Replay(log), siteId, ip, now) <==> (siteId, ip) in ListedPairs(Replay(log), siteId, now))
  {
    ReplayMeaning(log, (siteId, ip));
  }

  /** What is left out of an entry is filled in, and only that; what the table
      then holds is the last reason and expiry under the first id and time. */
  lemma FilledIn(rows: Rows, siteIds: set<string>, e: Entry, freshId: string, now: Time)
    requires Listable(siteIds, (e.siteId, e.ip))
    ensures var key := (e.siteId, e.ip);
            var rows' := Upsert(rows, siteIds, Stamped(e, freshId, now)).0;
            && rows'.Keys == rows.Keys + {key} && (forall k | k in rows && k != key :: rows'[k] == rows[k])
            && var row := rows'[key];
               && row.reason == e.reason && row.expiresAt == e.expiresAt
               && (if key in rows then row == rows[key].(reason := e.reason, expiresAt := e.expiresAt) else
                     && row.siteId == e.siteId && row.ip == e.ip
                     && row.id == (if e.id == "" then freshId else e.id)
                     && row.createdAt == (if e.createdAt == ZERO_TIME then now else e.createdAt))
  {
  }

  /** A ban lasts exactly as long as it says: after an addition that succeeds,
      and until something else is done to the pair, the pair is on the list at
      every instant before the expiry and at none from then on, and at all times
      without one. */
  lemma BanLasts(log: seq<Op>, e: Entry, later: seq<Op>, ip: string, t: Time)
    requires Column(e.ip, IP_WIDTH) == Some(ip) && e.siteId in SitesOf(log)
    requires forall op | op in later :: !Touches(op, e.siteId, ip)
    ensures Listed(Replay(log + [Added(e)] + later), e.siteId, ip, t) <==>
              e.expiresAt == None || t < e.expiresAt.value
    ensures (e.siteId, ip) in ListedPairs(Replay(log + [Added(e)] + later), e.siteId, t) <==>
              e.expiresAt == None || t < e.expiresAt.value
  {
    AnswersFollowTheLog(log + [Added(e)] + later, e.siteId, ip, t);
    LastStays(log, e, later, ip);
  }

  /** The operation could bear on the pair. */
  predicate Touches(op: Op, siteId: string, ip: string) {
    match op
    case Opened(_) => false
    case Dropped(id) => id == siteId
    case Added(e) => e.siteId == siteId && Column(e.ip, IP_WIDTH) == Some(ip)
    case Removed(id, address) => id == siteId && address == ip
  }

  lemma {:induction false} LastStays(log: seq<Op>, e: Entry, later: seq<Op>, ip: string)
    requires Column(e.ip, IP_WIDTH) == Some(ip) && e.siteId in SitesOf(log)
    requires forall op | op in later :: !Touches(op, e.siteId, ip)
    ensures LastOn(log + [Added(e)] + later, (e.siteId, ip)) == Some(Added(e))
    decreases |later|
  {
    hide Column;
    var all := log + [Added(e)] + later;
    var before := all[..|all| - 1];
    if later == [] {
      assert before == log;
    } else {
      var init := later[..|later| - 1];
      assert before == log + [Added(e)] + init;
      assert later[|later| - 1] in later;
      LastStays(log, e, init, ip);
    }
  }

  /** No history lists an address that the column does not hold as it is, or
      an address of a site that does not exist. */
  lemma {:induction false} OnlyListableIsListed(log: seq<Op>)
    ensures RowsFit(Replay(log), SitesOf(log))
  {
    if log != [] {
      OnlyListableIsListed(log[..|log| - 1]);
    }
  }

  // ---------------------------------------------------------- the tables

  /** The tables `sites` and `blacklist`; `log` remembers what was done to them. */
  class SiteTables {
    var sites: SiteRows
    var rows: Rows
    ghost var log: seq<Op>

    constructor ()
      ensures Valid() && sites == map[] && rows == map[] && log == []
    {
      sites, rows := map[], map[];
      log := [];
    }

    ghost predicate Valid()
      reads this
    {
      sites.Keys == SitesOf(log) && rows == Replay(log)
    }

    static lemma OneMoreOp(log: seq<Op>, op: Op)
      ensures (log + [op])[..|log + [op]| - 1] == log
    {
    }

    /** `CreateSite`, and every update of a site. */
    method PutSite(siteId: string, site: Site)
      requires Valid()
      modifies this
      ensures Valid() && log == old(log) + [Opened(siteId)]
      ensures sites == old(sites)[siteId := site] && rows == old(rows)
    {
      sites := sites[siteId := site];
      OneMoreOp(log, Opened(siteId));
      log := log + [Opened(siteId)];
    }

    method DeleteSite(siteId: string) returns (r: Result<()>)
      requires Valid()
      modifies this
      ensures Valid() && log == old(log) + [Dropped(siteId)]
      ensures sites == old(sites) - {siteId} && (r.Ok? <==> siteId in old(sites))
      ensures forall key :: key in rows <==> key in old(rows) && key.0 != siteId
      ensures forall key | key in rows :: rows[key] == old(rows)[key]
    {
      OnlyListableIsListed(log);
      OneMoreOp(log, Dropped(siteId));
      r := if siteId in sites then Ok(()) else Err(NoSuchSite);
      sites := sites - {siteId};
      rows := map key | key in rows && key.0 != siteId :: rows[key];
      log := log + [Dropped(siteId)];
    }

    method GetSite(siteId: string) returns (r: Option<Site>)
      ensures r == if siteId in sites then Some(sites[siteId]) else None
    {
      r := if siteId in sites then Some(sites[siteId]) else None;
    }

    method GetSiteSettings(siteId: string) returns (a: Analyzer)
      ensures a == SettingsOf(sites, siteId)
    {
      if siteId !in sites || sites[siteId].analyzer.None? {
        return DEFAULT_ANALYZER;
      }
      return sites[siteId].analyzer.value;
    }

    static lemma AddedLast(log: seq<Op>, e: Entry)
      ensures SitesOf(log + [Added(e)]) == SitesOf(log)
      ensures Replay(log + [Added(e)]) == Upsert(Replay(log), SitesOf(log), e).0
      ensures Column(e.ip, IP_WIDTH).Some? && e.siteId in SitesOf(log) ==>
                LastOn(log + [Added(e)], (e.siteId, Column(e.ip, IP_WIDTH).value)) == Some(Added(e))
    {
      OneMoreOp(log, Added(e));
    }

    /** An addition either fails, and changes no answer about any pair, or from
        then on is the last word on its pair. */
    method AddToBlacklist(entry: Entry, freshId: string, now: Time) returns (r: Result<()>)
      requires Valid()
      modifies this`rows, this`log
      ensures Valid() && log == old(log) + [Added(Stamped(entry, freshId, now))]
      ensures (rows, r) == Upsert(old(rows), sites.Keys, Stamped(entry, freshId, now))
      ensures r.Ok? <==> Column(entry.ip, IP_WIDTH).Some? && entry.siteId in sites
      ensures r.Ok? ==>
                var key := (entry.siteId, Column(entry.ip, IP_WIDTH).value);
                LastOn(log, key) == Some(Added(Stamped(entry, freshId, now)))
    {
      hide Replay, SitesOf, LastOn, Column;
      var e := entry;
      if e.id == "" {
        e := e.(id := freshId);
      }
      if e.createdAt == ZERO_TIME {
        e := e.(createdAt := now);
      }
      AddedLast(log, e);
      log := log + [Added(e)];
      var ip := Column(e.ip, IP_WIDTH);
      if ip.None? {
        return Err(ValueRefused);
      }
      if e.siteId !in sites {
        return Err(NoSuchSite);
      }
      var key := (e.siteId, ip.value);
      if key in rows {
        rows := rows[key := rows[key].(reason := e.reason, expiresAt := e.expiresAt)];
      } else {
        rows := rows[key := e.(ip := ip.value)];
      }
      return Ok(());
    }

    method RemoveFromBlacklist(siteId: string, ip: string) returns (r: Result<()>)
      requires Valid()
      modifies this`rows, this`log
      ensures Valid() && log == old(log) + [Removed(siteId, ip)]
      ensures rows == Delete(old(rows), siteId, ip)
      ensures r == if (siteId, ip) in old(rows) then Ok(()) else Err(BlacklistEntryNotFound)
    {
      OneMoreOp(log, Removed(siteId, ip));
      log := log + [Removed(siteId, ip)];
      if (siteId, ip) !in rows {
        return Err(BlacklistEntryNotFound);
      }
      rows := rows - {(siteId, ip)};
      return Ok(());
    }

    /** The answer follows from the history alone: the last operation that bore
        on the pair was an addition, and that has not expired. */
    method IsBlacklisted(siteId: string, ip: string, now: Time) returns (exists_: bool)
      requires Valid()
      ensures exists_ == Listed(rows, siteId, ip, now)
      ensures var last := LastOn(log, (siteId, ip));
              exists_ <==> last.Some? && last.value.Added?
                           && (last.value.entry.expiresAt == None || now < last.value.entry.expiresAt.value)
    {
      AnswersFollowTheLog(log, siteId, ip, now);
      exists_ := (siteId, ip) in rows
                 && (rows[(siteId, ip)].expiresAt.None? || rows[(siteId, ip)].expiresAt.value > now);
    }

    static lemma {:induction false} NewestExists(rows: Rows, keys: set<Pair>)
      requires keys <= rows.Keys && keys != {}
      ensures exists key :: key in keys && forall k | k in keys :: rows[k].createdAt <= rows[key].createdAt
      decreases |keys|
    {
      var key :| key in keys;
      if keys != {key} {
        NewestExists(rows, keys - {key});
        var other :| other in keys - {key} && forall k | k in keys - {key} ::
          rows[k].createdAt <= rows[other].createdAt;
        var newest := if rows[key].createdAt >= rows[other].createdAt then key else other;
        assert newest in keys && forall k | k in keys :: k == key || k in keys - {key};
      }
    }

    static lemma AllListed(rows: Rows, siteId: string, now: Time, keys: seq<Pair>, entries: seq<Entry>)
      requires |keys| == |entries| && (forall key | key in ListedPairs(rows, siteId, now) :: key in keys)
      requires forall i | 0 <= i < |keys| :: keys[i] in ListedPairs(rows, siteId, now) && entries[i] == rows[keys[i]]
      ensures forall e :: e in entries <==>
                exists key | key in rows :: e == rows[key] && InForce(rows, key, siteId, now)
    {
      forall key | key in rows && InForce(rows, key, siteId, now)
        ensures rows[key] in entries
      {
        assert key in ListedPairs(rows, siteId, now);
        var i :| 0 <= i < |keys| && keys[i] == key;
        assert entries[i] == rows[key];
      }
      forall e | e in entries
        ensures exists key | key in rows :: e == rows[key] && InForce(rows, key, siteId, now)
      {
        var i :| 0 <= i < |entries| && entries[i] == e;
        assert keys[i] in rows && InForce(rows, keys[i], siteId, now);
      }
    }

    /** A row of the site that has no expiry, or one that is still to come. */
    static predicate InForce(rows: Rows, key: Pair, siteId: string, now: Time)
      requires key in rows
    {
      key.0 == siteId && (rows[key].expiresAt == None || now < rows[key].expiresAt.value)
    }

    /** Every live row of the site once, newest first. */
    method ListBlacklist(siteId: string, now: Time) returns (entries: seq<Entry>)
      ensures forall e :: e in entries <==>
                exists key | key in rows :: e == rows[key] && InForce(rows, key, siteId, now)
      ensures exists keys: seq<Pair> ::
                && |keys| == |entries| == |ListedPairs(rows, siteId, now)|
                && (forall i | 0 <= i < |keys| ::
                      keys[i] in ListedPairs(rows, siteId, now) && entries[i] == rows[keys[i]])
                && (forall i, j | 0 <= i < j < |keys| ::
                      keys[i] != keys[j] && entries[i].createdAt >= entries[j].createdAt)
    {
      hide InForce;
      entries := [];
      var todo := set key | key in rows && key.0 == siteId && Unexpired(rows[key].expiresAt, now);
      ghost var all, keys: seq<Pair> := todo, [];
      while todo != {}
        invariant todo <= all && |keys| == |entries| == |all| - |todo|
        invariant forall i | 0 <= i < |keys| :: keys[i] in all && keys[i] !in todo && entries[i] == rows[keys[i]]
        invariant forall k | k in all && k !in todo :: k in keys
        invariant forall i, k | 0 <= i < |keys| && k in todo :: entries[i].createdAt >= rows[k].createdAt
        invariant forall i, j | 0 <= i < j < |keys| ::
                    keys[i] != keys[j] && entries[i].createdAt >= entries[j].createdAt
        decreases |todo|
      {
        NewestExists(rows, todo);
        var key :| key in todo && forall k | k in todo :: rows[k].createdAt <= rows[key].createdAt;
        entries := entries + [rows[key]];
        keys := keys + [key];
        todo := todo - {key};
      }
      AllListed(rows, siteId, now, keys, entries);
    }
  }
}
