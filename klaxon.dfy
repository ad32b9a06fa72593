/** The web application's use of the client: the team filter read from configuration,
  * the identity and headline of a manual page, and the memoised incident feed (a
  * one-entry TTL cache, filled with the recent incidents newest first, cleared after
  * a page is sent). */
module Klaxon {
  import opened Wrappers
  import opened Seqs
  import opened VictorOps

  // ---------------------------------------------------------------------------
  // Configuration
  // ---------------------------------------------------------------------------

  const DefaultCacheTtlSeconds: nat := 10
  const DefaultRecencyMinutes: nat := 60

  /** The settings the core reads; `None` is an unset environment variable. */
  datatype Config = Config(teamIdsFilter: Option<string>, cacheTtlSeconds: nat, recencyMinutes: nat)

  /** Settings taken from the environment, unset ones falling back to their defaults. */
  function ConfigFromEnvironment(teamIdsFilter: Option<string>, cacheTtlSeconds: Option<nat>,
                                 recencyMinutes: Option<nat>): (c: Config)
    ensures c.teamIdsFilter == teamIdsFilter
    ensures cacheTtlSeconds.None? ==> c.cacheTtlSeconds == 10
    ensures cacheTtlSeconds.Some? ==> c.cacheTtlSeconds == cacheTtlSeconds.value
    ensures recencyMinutes.None? ==> c.recencyMinutes == 60
    ensures recencyMinutes.Some? ==> c.recencyMinutes == recencyMinutes.value
  {
    Config(teamIdsFilter, cacheTtlSeconds.GetOr(DefaultCacheTtlSeconds), recencyMinutes.GetOr(DefaultRecencyMinutes))
  }

  /** Python's `s.split(',')`: the pieces between commas, empty ones included. */
  function Split(s: string): (parts: seq<string>)
    ensures |parts| >= 1
    ensures forall p :: p in parts ==> ',' !in p
  {
    if s == [] then [""]
    else
      var rest := Split(s[1..]);
      if s[0] == ',' then [""] + rest
      else [[s[0]] + rest[0]] + rest[1..]
  }

  /** `','.join(parts)`. */
  function Join(parts: seq<string>): string
    requires |parts| >= 1
  {
    if |parts| == 1 then parts[0] else parts[0] + "," + Join(parts[1..])
  }

  /** Splitting loses nothing: joining the pieces gives the setting back. */
  lemma {:induction false} JoinSplit(s: string)
    ensures Join(Split(s)) == s
  {
    if s != [] {
      JoinSplit(s[1..]);
      var rest := Split(s[1..]);
      if s[0] == ',' {
        assert Split(s)[1..] == rest;
        assert s == [','] + s[1..];
      } else {
        if |rest| == 1 {
          assert s == [s[0]] + s[1..];
        } else {
          assert Split(s)[1..] == rest[1..];
          assert s == [s[0]] + s[1..];
        }
      }
    }
  }

  /** The team filter setting: the set of its comma-separated pieces, or the empty set
    * when the setting is unset or empty. */
  function TeamIdsFromConfig(setting: Option<string>): (ids: set<string>)
    ensures ids == {} <==> !Truthy(setting)
    ensures forall id :: id in ids ==> ',' !in id
    ensures Truthy(setting) ==> forall id :: id in ids <==> id in Split(setting.value)
  {
    if Truthy(setting) then
      var parts := Split(setting.value);
      var ids := set p | p in parts;
      assert parts[0] in ids;
      ids
    else {}
  }

  /** What the client ends up filtering on: the pieces of a non-empty setting, and no
    * filter at all (rather than "match nothing") for an unset or empty one. */
  lemma ConfiguredTeamFilter(setting: Option<string>)
    ensures var f := NormalizeFilter(Many(TeamIdsFromConfig(setting)));
      (Truthy(setting) ==> f == Some(TeamIdsFromConfig(setting)) && Active(f)) &&
      (!Truthy(setting) ==> f == None && !Active(f))
  {
  }

  // ---------------------------------------------------------------------------
  // Who is paging
  // ---------------------------------------------------------------------------

  /** `get_username`: the authentication header, or "unknown" when there is none. */
  function Username(authHeader: Option<string>): (u: string)
    ensures authHeader.Some? ==> u == authHeader.value
    ensures authHeader.None? ==> u == "unknown"
  {
    authHeader.GetOr("unknown")
  }

  /** `get_user_identity`: "user (email)" when an email header is present and
    * non-empty, otherwise the bare username. */
  function UserIdentity(username: string, email: Option<string>): (identity: string)
    ensures Truthy(email) ==> identity == username + " (" + email.value + ")"
    ensures !Truthy(email) ==> identity == username
    ensures identity[..|username|] == username
  {
    if Truthy(email) then username + " (" + email.value + ")" else username
  }

  const HeadlineLead: string := "Manual #page by "

  /** The summary sent upstream for a manual page. */
  function Headline(identity: string, summary: string): (h: string)
    ensures |h| == |HeadlineLead| + |identity| + 2 + |summary|
    ensures h[..|HeadlineLead|] == HeadlineLead
    ensures h[|HeadlineLead|..|HeadlineLead| + |identity|] == identity
    ensures h[|HeadlineLead| + |identity|..|HeadlineLead| + |identity| + 2] == ": "
    ensures h[|h| - |summary|..] == summary
  {
    HeadlineLead + identity + ": " + summary
  }

  /** The headline loses nothing: for a given identity, different summaries give
    * different headlines. */
  lemma HeadlineInjective(identity: string, s1: string, s2: string)
    requires Headline(identity, s1) == Headline(identity, s2)
    ensures s1 == s2
  {
    var h := Headline(identity, s1);
    assert s1 == h[|HeadlineLead| + |identity| + 2..];
  }

  // ---------------------------------------------------------------------------
  // Recent incidents, newest first
  // ---------------------------------------------------------------------------

  predicate Ascending(xs: seq<Incident>) {
    forall i, j :: 0 <= i < j < |xs| ==> xs[i].time <= xs[j].time
  }

  predicate Descending(xs: seq<Incident>) {
    forall i, j :: 0 <= i < j < |xs| ==> xs[i].time >= xs[j].time
  }

  function HasTime(t: int): Incident -> bool {
    (x: Incident) => x.time == t
  }

  /** `now - i.time < max_delta`: strictly inside the window; later times always are. */
  function IsRecent(now: int, maxDelta: int): Incident -> bool {
    (x: Incident) => now - x.time < maxDelta
  }

  /** Places `x` before the first element that is not earlier than it. */
  function InsertByTime(x: Incident, ys: seq<Incident>): (r: seq<Incident>)
    ensures multiset(r) == multiset(ys) + multiset{x}
  {
    if ys == [] || x.time <= ys[0].time then [x] + ys
    else
      assert ys == [ys[0]] + ys[1..];
      [ys[0]] + InsertByTime(x, ys[1..])
  }

  /** `rv.sort(key=attrgetter('time'))`: a stable ascending sort, given here as an
    * insertion sort whose properties are proved below. */
  function SortByTime(xs: seq<Incident>): (r: seq<Incident>)
    ensures multiset(r) == multiset(xs)
  {
    if xs == [] then []
    else
      assert xs == [xs[0]] + xs[1..];
      InsertByTime(xs[0], SortByTime(xs[1..]))
  }

  lemma {:induction false} InsertByTimeAscending(x: Incident, ys: seq<Incident>)
    requires Ascending(ys)
    ensures Ascending(InsertByTime(x, ys))
  {
    if ys != [] && x.time > ys[0].time {
      InsertByTimeAscending(x, ys[1..]);
      var r := InsertByTime(x, ys[1..]);
      forall z | z in r ensures ys[0].time <= z.time {
        assert z in multiset(r);
      }
    }
  }

  lemma {:induction false} SortByTimeAscending(xs: seq<Incident>)
    ensures Ascending(SortByTime(xs))
  {
    if xs != [] {
      SortByTimeAscending(xs[1..]);
      InsertByTimeAscending(xs[0], SortByTime(xs[1..]));
    }
  }

  lemma {:induction false} InsertByTimeStable(x: Incident, ys: seq<Incident>, t: int)
    ensures Filter(HasTime(t), InsertByTime(x, ys)) == Filter(HasTime(t), [x] + ys)
    decreases |ys|
  {
    if ys != [] && x.time > ys[0].time {
      // `x` moves past `ys[0]`, which has another time: at most one of the two is kept.
      InsertByTimeStable(x, ys[1..], t);
      FilterSwap(HasTime(t), x, ys[0], InsertByTime(x, ys[1..]), ys[1..]);
      assert [ys[0]] + ys[1..] == ys;
    }
  }

  /** Stability: the incidents that share any one time keep their relative order. */
  lemma {:induction false} SortByTimeStable(xs: seq<Incident>, t: int)
    ensures Filter(HasTime(t), SortByTime(xs)) == Filter(HasTime(t), xs)
  {
    if xs != [] {
      SortByTimeStable(xs[1..], t);
      InsertByTimeStable(xs[0], SortByTime(xs[1..]), t);
      FilterAppend(HasTime(t), [xs[0]], SortByTime(xs[1..]));
      FilterAppend(HasTime(t), [xs[0]], xs[1..]);
      assert xs == [xs[0]] + xs[1..];
    }
  }

  /** `fetch_victorops` after the fetch: keep the recent incidents, sort them by time
    * ascending, then reverse the list. */
  function RecentFirst(xs: seq<Incident>, now: int, maxDelta: int): (r: seq<Incident>)
    ensures Descending(r)
    ensures multiset(r) == multiset(Filter(IsRecent(now, maxDelta), xs))
  {
    var sorted := SortByTime(Filter(IsRecent(now, maxDelta), xs));
    SortByTimeAscending(Filter(IsRecent(now, maxDelta), xs));
    ReverseMultiset(sorted);
    Reverse(sorted)
  }

  /** The feed holds exactly the fetched incidents inside the window, newest first. */
  lemma RecentFirstSelection(xs: seq<Incident>, now: int, maxDelta: int)
    ensures Descending(RecentFirst(xs, now, maxDelta))
    ensures multiset(RecentFirst(xs, now, maxDelta)) == multiset(Filter(IsRecent(now, maxDelta), xs))
    ensures forall x :: x in RecentFirst(xs, now, maxDelta) <==> x in xs && now - x.time < maxDelta
  {
    var kept := Filter(IsRecent(now, maxDelta), xs);
    SortByTimeAscending(kept);
    ReverseMultiset(SortByTime(kept));
    FilterMembership(IsRecent(now, maxDelta), xs);
    forall x ensures x in RecentFirst(xs, now, maxDelta) <==> x in kept {
      assert x in RecentFirst(xs, now, maxDelta) <==> x in multiset(RecentFirst(xs, now, maxDelta));
    }
  }

  /** Incidents that share a start time come out in the reverse of their fetch order
    * (a stable ascending sort followed by a reversal), and all of them or none are
    * inside the window. */
  lemma RecentFirstTies(xs: seq<Incident>, now: int, maxDelta: int, t: int)
    ensures Filter(HasTime(t), RecentFirst(xs, now, maxDelta)) ==
      if now - t < maxDelta then Reverse(Filter(HasTime(t), xs)) else []
  {
    var kept := Filter(IsRecent(now, maxDelta), xs);
    FilterReverse(HasTime(t), SortByTime(kept));
    SortByTimeStable(kept, t);
    FilterFilter(HasTime(t), IsRecent(now, maxDelta), xs);
  }

  // ---------------------------------------------------------------------------
  // The one-entry cache
  // ---------------------------------------------------------------------------

  /** A stored result and the tick at which it stops being served. */
  datatype Entry = Entry(incidents: seq<Incident>, expires: int)

  /** `TTLCache(1, ttl)` under the single key of `fetch_victorops`: empty, or one entry. */
  class IncidentCache {
    const ttl: nat
    var slot: Option<Entry>

    constructor (ttl: nat)
      ensures this.ttl == ttl && slot == None
    {
      this.ttl := ttl;
      slot := None;
    }

    /** A lookup is served from the slot only before the entry expires. */
    predicate Hit(tick: int)
      reads this
    {
      slot.Some? && tick < slot.value.expires
    }

    method Lookup(tick: int) returns (found: Option<seq<Incident>>)
      ensures found.Some? <==> slot.Some? && tick < slot.value.expires
      ensures found.Some? ==> found.value == slot.value.incidents
    {
      if slot.Some? && tick < slot.value.expires {
        found := Some(slot.value.incidents);
      } else {
        found := None;
      }
    }

    /** Storing replaces whatever the slot held: there is never more than one entry. */
    method Store(tick: int, incidents: seq<Incident>)
      modifies this
      ensures slot == Some(Entry(incidents, tick + ttl))
    {
      slot := Some(Entry(incidents, tick + ttl));
    }

    /** `api_cache.clear()`. */
    method Clear()
      modifies this
      ensures slot == None
      ensures forall tick :: !Hit(tick)
    {
      slot := None;
    }
  }

  // ---------------------------------------------------------------------------
  // The application
  // ---------------------------------------------------------------------------

  /** `create_app`: the client, the cache and the recency window, wired together. */
  class App {
    const vo: Client
    const cache: IncidentCache
    const maxDelta: int   // the recency window, in seconds

    /** Whatever the cache holds is newest first. */
    ghost predicate Valid()
      reads cache
    {
      cache.slot.Some? ==> Descending(cache.slot.value.incidents)
    }

    constructor (config: Config)
      ensures Valid() && fresh(vo) && fresh(cache)
      ensures cache.slot == None && cache.ttl == config.cacheTtlSeconds
      ensures maxDelta == config.recencyMinutes * 60
      ensures vo.teamIds == (if Truthy(config.teamIdsFilter) then Some(TeamIdsFromConfig(config.teamIdsFilter)) else None)
      ensures vo.escPolicyIds == None
    {
      vo := new Client(Many(TeamIdsFromConfig(config.teamIdsFilter)), Absent);
      cache := new IncidentCache(config.cacheTtlSeconds);
      maxDelta := config.recencyMinutes * 60;
    }

    /** The body of `fetch_victorops`, run on a miss: fetch once, keep the incidents
      * inside the window measured from `now`, newest first, and store them until
      * `tick + ttl`. A failed fetch is raised and nothing is stored. */
    method Refill(tick: int, now: int, reply: Reply<seq<RawIncident>>) returns (r: Result<seq<Incident>>)
      requires Valid() && !cache.Hit(tick)
      modifies cache
      ensures Valid()
      ensures r == match FetchedIncidents(vo.teamIds, reply)
                   case Err(e) => Err(e)
                   case Ok(xs) => Ok(RecentFirst(xs, now, maxDelta))
      ensures r.Ok? ==> cache.slot == Some(Entry(r.value, tick + cache.ttl)) && Descending(r.value)
      ensures r.Err? ==> cache.slot == old(cache.slot)
    {
      var incidents := vo.FetchIncidents(reply);
      if incidents.Err? {
        return Err(incidents.error);
      }
      var rv := RecentFirst(incidents.value, now, maxDelta);
      assert Descending(rv);
      cache.Store(tick, rv);
      r := Ok(rv);
    }

    /** `fetch_victorops` behind its cache: a hit returns the stored list as it was
      * computed at fill time and fetches nothing; a miss runs `Refill`. `tick` is the
      * cache's clock, `now` the wall clock. */
    method FetchVictorOps(tick: int, now: int, reply: Reply<seq<RawIncident>>)
      returns (r: Result<seq<Incident>>, fetched: bool)
      requires Valid()
      modifies cache
      ensures Valid()
      ensures fetched == !old(cache.Hit(tick))
      ensures !fetched ==> r == Ok(old(cache.slot).value.incidents) && cache.slot == old(cache.slot)
      ensures fetched ==> r == match FetchedIncidents(vo.teamIds, reply)
                                case Err(e) => Err(e)
                                case Ok(xs) => Ok(RecentFirst(xs, now, maxDelta))
      ensures fetched && r.Ok? ==> cache.slot == Some(Entry(r.value, tick + cache.ttl))
      ensures fetched && r.Err? ==> cache.slot == old(cache.slot)
      ensures r.Ok? ==> Descending(r.value)
    {
      var cached := cache.Lookup(tick);
      if cached.Some? {
        return Ok(cached.value), false;
      }
      r := Refill(tick, now, reply);
      fetched := true;
    }

    /** `submit_page`: the page carries the headline as its summary; only once it has
      * been sent does the cache get cleared, so that the next read is a miss. */
    method SubmitPage(authHeader: Option<string>, emailHeader: Option<string>, summary: string,
                      description: string, reply: Reply<PageReply>)
      returns (sent: CreateIncident, r: Result<()>)
      requires Valid()
      modifies cache
      ensures Valid()
      ensures sent == CreateIncident("CRITICAL", Headline(UserIdentity(Username(authHeader), emailHeader), summary), description)
      ensures r == PageOutcome(reply)
      ensures r.Ok? ==> cache.slot == None && forall tick :: !cache.Hit(tick)
      ensures r.Err? ==> cache.slot == old(cache.slot)
    {
      var headline := Headline(UserIdentity(Username(authHeader), emailHeader), summary);
      sent, r := SendPage(headline, description, reply);
      if r.Err? {
        return;
      }
      cache.Clear();
    }
  }
}
