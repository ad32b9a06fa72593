/** The situations the client's test suite checks, stated about the model's
  * functions on concrete values. Times are whole seconds since the epoch. */
module Scenarios {
  import opened Wrappers
  import opened Seqs
  import opened VictorOps
  import opened Klaxon

  const At19h: int := 1608663729   // 2020-12-22T19:02:09Z
  const At20h: int := 1608667329   // 2020-12-22T20:02:09Z

  function Record(service: string, phase: string, start: int, team: string, paged: seq<string>, number: string): RawIncident {
    RawIncident(Some(service), None, None, Some(phase), Some(number), Some(paged), Some(start), Some([team]))
  }

  /** The listing of the incidents test: four records for team-sre, one for another team. */
  function Listing(): seq<RawIncident> {
    [ Record("PerplexityTooHigh_60m", "ACKED", At19h, "team-sre", ["rzl"], "60"),
      Record("unacked but has paged someone", "UNACKED", At19h, "team-sre", ["godog"], "62"),
      Record("acked", "ACKED", At19h, "team-sre", [], "63"),
      Record("unacked and not paging anyone", "UNACKED", At20h, "team-sre", [], "61"),
      Record("wrong team", "UNACKED", At20h, "team-xyzzy", [], "67") ]
  }

  function Expected(): seq<Incident> {
    [ Incident("60", "PerplexityTooHigh_60m", true, At19h, {"team-sre"}, {"rzl"}),
      Incident("62", "unacked but has paged someone", false, At19h, {"team-sre"}, {"godog"}),
      Incident("63", "acked", true, At19h, {"team-sre"}, {}),
      Incident("61", "unacked and not paging anyone", false, At20h, {"team-sre"}, {}) ]
  }

  const WrongTeam: Incident := Incident("67", "wrong team", false, At20h, {"team-xyzzy"}, {})

  /** A well-formed record parses to the incident with its number, service and start time. */
  lemma RecordParses(service: string, phase: string, start: int, team: string, paged: seq<string>, number: string,
                     users: set<string>)
    requires service != ""
    requires forall u :: u in users <==> u in paged
    ensures ParseIncident(Record(service, phase, start, team, paged, number)) ==
            Ok(Incident(number, service, phase != "UNACKED", start, {team}, users))
  {
    var r := Record(service, phase, start, team, paged, number);
    assert FirstTruthy(SummaryCandidates(r), UnknownAlert) == service;
    assert (set t | t in [team]) == {team};
    assert (set u | u in paged) == users;
  }

  lemma ParsedListing()
    ensures ParseAll(Listing()) == Ok(Expected() + [WrongTeam])
  {
    var l, all := Listing(), Expected() + [WrongTeam];
    RecordParses("PerplexityTooHigh_60m", "ACKED", At19h, "team-sre", ["rzl"], "60", {"rzl"});
    RecordParses("unacked but has paged someone", "UNACKED", At19h, "team-sre", ["godog"], "62", {"godog"});
    RecordParses("acked", "ACKED", At19h, "team-sre", [], "63", {});
    RecordParses("unacked and not paging anyone", "UNACKED", At20h, "team-sre", [], "61", {});
    RecordParses("wrong team", "UNACKED", At20h, "team-xyzzy", [], "67", {});
    assert ParseIncident(l[0]) == Ok(all[0]);
    assert ParseIncident(l[1]) == Ok(all[1]);
    assert ParseIncident(l[2]) == Ok(all[2]);
    assert ParseIncident(l[3]) == Ok(all[3]);
    assert ParseIncident(l[4]) == Ok(all[4]);
    ParseAllRecordWise(l, all);
  }

  /** A one-team filter keeps a list routed to that team and drops a trailing incident
    * routed elsewhere. */
  lemma OneTeamKept(team: string, e: seq<Incident>, w: Incident)
    requires forall x :: x in e ==> team in x.teams
    requires team !in w.teams
    ensures Filter(TeamMatcher(Some({team})), e + [w]) == e
  {
    var f := TeamMatcher(Some({team}));
    FilterAllKept(f, e);
    FilterSingleton(f, w);
    FilterAppend(f, e, [w]);
  }

  /** The team filter keeps the four team-sre incidents and drops incident 67. */
  lemma TeamSreKept()
    ensures Filter(TeamMatcher(Some({"team-sre"})), Expected() + [WrongTeam]) == Expected()
  {
    OneTeamKept("team-sre", Expected(), WrongTeam);
  }

  /** A 200 reply whose records all parse yields the parsed incidents the filter admits. */
  lemma FetchOfParsedListing(teamIds: Option<set<string>>, raws: seq<RawIncident>, xs: seq<Incident>)
    requires ParseAll(raws) == Ok(xs)
    ensures FetchedIncidents(teamIds, Response(200, raws)) == Ok(Filter(TeamMatcher(teamIds), xs))
  {
    assert CheckStatus(Response(200, raws)) == Ok(raws);
  }

  /** With the filter "team-sre", only the other team's incident is dropped. */
  lemma FetchDropsOtherTeam()
    ensures FetchedIncidents(NormalizeFilter(One("team-sre")), Response(200, Listing())) == Ok(Expected())
  {
    var teamIds := NormalizeFilter(One("team-sre"));
    assert teamIds == Some({"team-sre"});
    ParsedListing();
    FetchOfParsedListing(teamIds, Listing(), Expected() + [WrongTeam]);
    TeamSreKept();
  }

  /** Of those four, only incident 61 is unacked with nobody paged. */
  lemma EscalatesOnlyUnpaged()
    ensures Unpaged(Expected()) == [Expected()[3]]
    ensures ReroutePayload(Unpaged(Expected()), "pol-batphone", DefaultEscalator) ==
      RerouteRequest("escalator_sysuser", [Reroute("61", [RerouteTarget("EscalationPolicy", "pol-batphone")])])
  {
    var e := Expected();
    assert "rzl" in e[0].pagedUsers;
    assert "godog" in e[1].pagedUsers;
    assert Init(e) == e[..3];
    assert Init(e[..3]) == e[..2];
    assert Init(e[..2]) == e[..1];
    assert Init(e[..1]) == [];
  }

  /** The filtered on-call test: only the first policy of the first team is listed. */
  lemma OncallersFiltered()
    ensures OncallNames(Some({"team-xyzzyblah"}), Some({"pol-xyzzyblah"}),
      [ TeamOnCall("team-xyzzyblah", [PolicyOnCall("pol-xyzzyblah", ["cdanis", "rzl"]),
                                      PolicyOnCall("pol-pleasestop", ["literally", "everybody"])]),
        TeamOnCall("team-abcd12345", [PolicyOnCall("pol-xyzzyblah", ["bstorm"])]) ]) == ["cdanis", "rzl"]
  {
    var teams, pols := Some({"team-xyzzyblah"}), Some({"pol-xyzzyblah"});
    var p1 := [PolicyOnCall("pol-xyzzyblah", ["cdanis", "rzl"]), PolicyOnCall("pol-pleasestop", ["literally", "everybody"])];
    var ts := [TeamOnCall("team-xyzzyblah", p1), TeamOnCall("team-abcd12345", [PolicyOnCall("pol-xyzzyblah", ["bstorm"])])];
    assert Init(p1) == [p1[0]] && Init([p1[0]]) == [];
    assert PolicyNames(pols, [p1[0]]) == ["cdanis", "rzl"];
    assert !Admits(pols, "pol-pleasestop");
    assert PolicyNames(pols, p1) == ["cdanis", "rzl"];
    assert Init(ts) == [ts[0]] && Init([ts[0]]) == [];
    assert OncallNames(teams, pols, [ts[0]]) == ["cdanis", "rzl"];
    assert !Admits(teams, "team-abcd12345");
  }

  /** Window of 60 minutes: an incident 5 minutes old is shown, one 120 minutes old is not. */
  lemma RecencyWindow(now: int, a: Incident, b: Incident)
    requires a.time == now - 5 * 60 && b.time == now - 120 * 60
    ensures RecentFirst([a, b], now, 60 * 60) == [a]
  {
    var p := IsRecent(now, 60 * 60);
    FilterCons(p, a, [b]);
    FilterSingleton(p, b);
    assert [a] + [b] == [a, b];
    assert Filter(p, [a, b]) == [a];
    assert SortByTime([a]) == [a] by {
      assert [a][1..] == [];
    }
  }

  /** Incidents already in ascending time order are left as they are by the sort. */
  lemma SortsThree(i1: Incident, i2: Incident, i3: Incident)
    requires i1.time < i2.time < i3.time
    ensures SortByTime([i1, i2, i3]) == [i1, i2, i3]
  {
    assert SortByTime([i3]) == [i3] by {
      assert [i3][1..] == [];
    }
    assert SortByTime([i2, i3]) == [i2, i3] by {
      assert [i2, i3][1..] == [i3];
    }
    assert [i1, i2, i3][1..] == [i2, i3];
  }

  lemma ReversesThree(i1: Incident, i2: Incident, i3: Incident)
    ensures Reverse([i1, i2, i3]) == [i3, i2, i1]
  {
    var r := Reverse([i1, i2, i3]);
    assert |r| == 3 && r[0] == i3 && r[1] == i2 && r[2] == i1;
  }

  /** Incidents at times t1 < t2 < t3, all inside the window, come out as t3, t2, t1. */
  lemma NewestFirst(i1: Incident, i2: Incident, i3: Incident, now: int, maxDelta: int)
    requires i1.time < i2.time < i3.time && now - i1.time < maxDelta
    ensures RecentFirst([i1, i2, i3], now, maxDelta) == [i3, i2, i1]
  {
    var xs := [i1, i2, i3];
    var p := IsRecent(now, maxDelta);
    assert p(i1) && p(i2) && p(i3);
    FilterAllKept(p, xs);
    SortsThree(i1, i2, i3);
    ReversesThree(i1, i2, i3);
    assert RecentFirst(xs, now, maxDelta) == Reverse(SortByTime(Filter(p, xs)));
  }

  /** The three outcomes of sending a page the tests check. */
  lemma PageOutcomes()
    ensures PageOutcome(Response(503, PageReply(None, None))) == Err(HttpError(503))
    ensures PageOutcome(NoResponse) == Err(ConnectionFailed)
    ensures PageOutcome(Response(200, PageReply(Some("failure"), None))) == Err(VictorOpsError(""))
    ensures PageOutcome(Response(200, PageReply(Some("success"), None))) == Ok(())
  {
  }
}
