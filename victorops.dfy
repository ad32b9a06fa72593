/** The VictorOps (Splunk On-Call) shim: the decisions the client makes around the
  * API, with every HTTP exchange reduced to an input value (a reply) and every
  * decoded JSON document to a datatype. */
module VictorOps {
  import opened Wrappers
  import opened Seqs

  // ---------------------------------------------------------------------------
  // Errors and replies
  // ---------------------------------------------------------------------------

  /** What a call can raise. */
  datatype Error =
    | ConnectionFailed                  // the request itself failed (connection error, timeout)
    | HttpError(status: int)            // `raise_for_status` on a 4xx or 5xx response
    | VictorOpsError(message: string)   // HTTP succeeded but the API reported a failure
    | MissingField(field: string)       // a required key is absent from a record (`KeyError`)

  datatype Result<T> = Ok(value: T) | Err(error: Error)

  /** The outcome of one HTTP exchange, with the JSON body already decoded. */
  datatype Reply<B> = NoResponse | Response(status: int, body: B)

  /** The statuses `raise_for_status` raises for: client and server errors. */
  predicate IsHttpError(status: int) {
    400 <= status < 600
  }

  /** `resp.raise_for_status(); j = resp.json()`: the body, unless the exchange failed. */
  function CheckStatus<B>(reply: Reply<B>): (r: Result<B>)
    ensures r.Ok? <==> reply.Response? && !IsHttpError(reply.status)
    ensures r.Ok? ==> r.value == reply.body
    ensures reply.NoResponse? ==> r == Err(ConnectionFailed)
    ensures reply.Response? && IsHttpError(reply.status) ==> r == Err(HttpError(reply.status))
  {
    match reply
    case NoResponse => Err(ConnectionFailed)
    case Response(status, body) => if IsHttpError(status) then Err(HttpError(status)) else Ok(body)
  }

  // ---------------------------------------------------------------------------
  // Filters
  // ---------------------------------------------------------------------------

  /** What a caller may pass as a team or escalation-policy filter. */
  datatype FilterArg = Absent | One(id: string) | Many(ids: set<string>)

  /** A filter that Python treats as set: present and non-empty. `None` and an empty
    * set both mean "no filter" (the fields can be reassigned after construction). */
  predicate Active(f: Option<set<string>>) {
    f.Some? && f.value != {}
  }

  /** Whether an identifier gets through a filter. */
  predicate Admits(f: Option<set<string>>, id: string) {
    !Active(f) || id in f.value
  }

  /** `setOrStringToSet`: a non-empty string becomes a singleton, a non-empty collection
    * its set of elements, and everything else (nothing, "" or an empty collection)
    * no filter at all. */
  function NormalizeFilter(v: FilterArg): (r: Option<set<string>>)
    ensures r.Some? <==> (v.One? && v.id != "") || (v.Many? && v.ids != {})
    ensures v.One? && v.id != "" ==> r == Some({v.id})
    ensures v.Many? ==> r.Some? ==> r.value == v.ids
    ensures r.Some? <==> Active(r)
  {
    match v
    case One(id) => if id != "" then Some({id}) else None
    case Many(ids) => if ids != {} then Some(ids) else None
    case Absent => None
  }

  // ---------------------------------------------------------------------------
  // Incidents
  // ---------------------------------------------------------------------------

  datatype Incident = Incident(
    id: string,               // `incidentNumber`, a string even though it looks numeric
    summary: string,
    acked: bool,              // acknowledged or resolved
    time: int,                // start time as a timestamp in seconds
    teams: set<string>,       // team slugs the incident was routed to
    pagedUsers: set<string>)  // usernames currently being notified

  /** One entry of the `incidents` array of `GET api-public/v1/incidents`.
    * `None` is a key that is absent. */
  datatype RawIncident = RawIncident(
    service: Option<string>,
    entityDisplayName: Option<string>,
    monitorName: Option<string>,
    currentPhase: Option<string>,
    incidentNumber: Option<string>,
    pagedUsers: Option<seq<string>>,
    startTime: Option<int>,
    pagedTeams: Option<seq<string>>)

  const UnknownAlert: string := "unknown alert"

  /** The keys `_parse_incident` indexes with `[]`, in the order it evaluates them. */
  const RequiredFields: seq<string> :=
    ["currentPhase", "incidentNumber", "pagedUsers", "startTime", "pagedTeams"]

  predicate HasField(i: RawIncident, field: string) {
    match field
    case "currentPhase" => i.currentPhase.Some?
    case "incidentNumber" => i.incidentNumber.Some?
    case "pagedUsers" => i.pagedUsers.Some?
    case "startTime" => i.startTime.Some?
    case "pagedTeams" => i.pagedTeams.Some?
    case _ => true
  }

  /** Python's `a or b or ... or fallback` over optional strings: the first candidate
    * that is present and non-empty, else the fallback. */
  function FirstTruthy(candidates: seq<Option<string>>, fallback: string): (s: string)
    ensures (forall k :: 0 <= k < |candidates| ==> !Truthy(candidates[k])) ==> s == fallback
    ensures forall k :: (0 <= k < |candidates| && Truthy(candidates[k]) &&
                         (forall j :: 0 <= j < k ==> !Truthy(candidates[j]))) ==> s == candidates[k].value
    ensures fallback != "" ==> s != ""
  {
    if candidates == [] then fallback
    else if Truthy(candidates[0]) then candidates[0].value
    else
      assert forall k :: 1 <= k < |candidates| ==> candidates[k] == candidates[1..][k - 1];
      FirstTruthy(candidates[1..], fallback)
  }

  function SummaryCandidates(i: RawIncident): seq<Option<string>> {
    [i.service, i.entityDisplayName, i.monitorName]
  }

  /** `_parse_incident`: the summary falls back from `service` to `entityDisplayName` to
    * `monitorName` to "unknown alert", skipping absent and empty values; `acked` is
    * false exactly for phase "UNACKED"; a missing required key fails the parse. */
  function ParseIncident(i: RawIncident): (r: Result<Incident>)
    ensures r.Ok? <==> i.currentPhase.Some? && i.incidentNumber.Some? && i.pagedUsers.Some? &&
                       i.startTime.Some? && i.pagedTeams.Some?
    ensures r.Err? ==> r.error.MissingField? && !HasField(i, r.error.field)
    ensures r.Ok? ==> r.value.summary == FirstTruthy(SummaryCandidates(i), UnknownAlert) && r.value.summary != ""
    ensures r.Ok? ==> (!r.value.acked <==> i.currentPhase.value == "UNACKED")
    ensures r.Ok? ==> r.value.id == i.incidentNumber.value && r.value.time == i.startTime.value
    ensures r.Ok? ==> (forall u :: u in r.value.pagedUsers <==> u in i.pagedUsers.value)
    ensures r.Ok? ==> (forall t :: t in r.value.teams <==> t in i.pagedTeams.value)
  {
    var summary := FirstTruthy(SummaryCandidates(i), UnknownAlert);
    if i.currentPhase.None? then Err(MissingField("currentPhase"))
    else if i.incidentNumber.None? then Err(MissingField("incidentNumber"))
    else if i.pagedUsers.None? then Err(MissingField("pagedUsers"))
    else if i.startTime.None? then Err(MissingField("startTime"))
    else if i.pagedTeams.None? then Err(MissingField("pagedTeams"))
    else
      Ok(Incident(
        i.incidentNumber.value,
        summary,
        i.currentPhase.value != "UNACKED",
        i.startTime.value,
        set t | t in i.pagedTeams.value,
        set u | u in i.pagedUsers.value))
  }

  /** The first missing key, in evaluation order, is the one reported. */
  lemma ParseIncidentReportsFirstMissing(i: RawIncident)
    requires ParseIncident(i).Err?
    ensures exists k :: (0 <= k < |RequiredFields| && ParseIncident(i).error == MissingField(RequiredFields[k]) &&
                         !HasField(i, RequiredFields[k]) &&
                         forall j :: 0 <= j < k ==> HasField(i, RequiredFields[j]))
  {
    var k := if i.currentPhase.None? then 0 else if i.incidentNumber.None? then 1
      else if i.pagedUsers.None? then 2 else if i.startTime.None? then 3 else 4;
    assert ParseIncident(i).error == MissingField(RequiredFields[k]);
  }

  /** Every record, parsed in order; the first malformed record fails the whole listing. */
  function ParseAll(raws: seq<RawIncident>): (r: Result<seq<Incident>>)
    ensures r.Ok? ==> |r.value| == |raws|
  {
    if raws == [] then Ok([])
    else
      match ParseAll(Init(raws))
      case Err(e) => Err(e)
      case Ok(xs) =>
        match ParseIncident(Last(raws))
        case Err(e) => Err(e)
        case Ok(x) => Ok(xs + [x])
  }

  /** `_matches_teams`: with no active team filter every incident matches; otherwise
    * an incident matches when it was routed to some team in the filter. */
  predicate MatchesTeams(teamIds: Option<set<string>>, ii: Incident)
    ensures MatchesTeams(teamIds, ii) <==> !Active(teamIds) || exists t :: t in ii.teams && t in teamIds.value
  {
    !Active(teamIds) || (Shared(ii.teams, teamIds.value); ii.teams * teamIds.value != {})
  }

  /** Python's `bool(a & b)`: the two sets share an element. */
  lemma Shared(a: set<string>, b: set<string>)
    ensures a * b != {} <==> exists t :: t in a && t in b
  {
    if a * b != {} {
      var t :| t in a * b;
      assert t in a && t in b;
    }
    if exists t :: t in a && t in b {
      var t :| t in a && t in b;
      assert t in a * b;
    }
  }

  /** `_matches_teams` as a value, to filter with. */
  function TeamMatcher(teamIds: Option<set<string>>): (f: Incident -> bool)
    ensures forall ii :: f(ii) <==> !Active(teamIds) || exists t :: t in ii.teams && t in teamIds.value
  {
    (ii: Incident) => MatchesTeams(teamIds, ii)
  }

  /** What `fetch_incidents` produces from one reply of the incidents listing. */
  function FetchedIncidents(teamIds: Option<set<string>>, reply: Reply<seq<RawIncident>>): (r: Result<seq<Incident>>)
    ensures r.Ok? <==> reply.Response? && !IsHttpError(reply.status) && ParseAll(reply.body).Ok?
    ensures r.Ok? ==> |r.value| <= |reply.body|
    ensures r.Err? && CheckStatus(reply).Err? ==> r.error == CheckStatus(reply).error
    ensures reply.Response? && !IsHttpError(reply.status) && ParseAll(reply.body).Err? ==>
              r == Err(ParseAll(reply.body).error)
  {
    match CheckStatus(reply)
    case Err(e) => Err(e)
    case Ok(raws) =>
      match ParseAll(raws)
      case Err(e) => Err(e)
      case Ok(xs) => Ok(Filter(TeamMatcher(teamIds), xs))
  }

  /** The incidents `fetch_incidents` yields are the parsed records routed to a team in
    * the filter, in response order; with no filter they are all of them. */
  lemma {:induction false} ParseAllSucceeds(raws: seq<RawIncident>)
    requires ParseAll(raws).Ok?
    ensures forall k :: 0 <= k < |raws| ==> ParseIncident(raws[k]) == Ok(ParseAll(raws).value[k])
  {
    if raws != [] {
      ParseAllSucceeds(Init(raws));
      assert forall k :: 0 <= k < |raws| - 1 ==> raws[k] == Init(raws)[k];
    }
  }

  /** Conversely, records that each parse make a listing that parses to them, in order. */
  lemma {:induction false} ParseAllRecordWise(raws: seq<RawIncident>, xs: seq<Incident>)
    requires |xs| == |raws|
    requires forall k :: 0 <= k < |raws| ==> ParseIncident(raws[k]) == Ok(xs[k])
    ensures ParseAll(raws) == Ok(xs)
  {
    if raws != [] {
      assert forall k :: 0 <= k < |raws| - 1 ==> Init(raws)[k] == raws[k];
      ParseAllRecordWise(Init(raws), Init(xs));
      assert xs == Init(xs) + [Last(xs)];
    }
  }

  /** Fail fast: the listing fails with the error of its first malformed record. */
  lemma {:induction false} ParseAllFails(raws: seq<RawIncident>)
    requires ParseAll(raws).Err?
    ensures exists k :: (0 <= k < |raws| && ParseIncident(raws[k]) == Err(ParseAll(raws).error) &&
                         forall j :: 0 <= j < k ==> ParseIncident(raws[j]).Ok?)
  {
    var init := Init(raws);
    assert forall k :: 0 <= k < |raws| - 1 ==> raws[k] == init[k];
    if ParseAll(init).Err? {
      ParseAllFails(init);
      var k :| 0 <= k < |init| && ParseIncident(init[k]) == Err(ParseAll(init).error) &&
               forall j :: 0 <= j < k ==> ParseIncident(init[j]).Ok?;
      assert ParseIncident(raws[k]) == Err(ParseAll(raws).error);
    } else {
      ParseAllSucceeds(init);
      assert ParseIncident(raws[|raws| - 1]) == Err(ParseAll(raws).error);
    }
  }

  lemma FetchedIncidentsSelection(teamIds: Option<set<string>>, reply: Reply<seq<RawIncident>>)
    requires reply.Response? && !IsHttpError(reply.status) && ParseAll(reply.body).Ok?
    ensures var parsed := ParseAll(reply.body).value;
      var r := FetchedIncidents(teamIds, reply);
      r.Ok? && IsSubsequence(r.value, parsed) &&
      (forall x :: x in r.value <==> x in parsed && (!Active(teamIds) || exists t :: t in x.teams && t in teamIds.value)) &&
      (forall x :: multiset(r.value)[x] == if MatchesTeams(teamIds, x) then multiset(parsed)[x] else 0) &&
      (!Active(teamIds) ==> r.value == parsed)
  {
    var parsed := ParseAll(reply.body).value;
    FilterIsSubsequence(TeamMatcher(teamIds), parsed);
    FilterMembership(TeamMatcher(teamIds), parsed);
    forall x ensures multiset(Filter(TeamMatcher(teamIds), parsed))[x] ==
                     if MatchesTeams(teamIds, x) then multiset(parsed)[x] else 0 {
      FilterCount(TeamMatcher(teamIds), parsed, x);
    }
    if !Active(teamIds) {
      assert forall x :: x in parsed ==> TeamMatcher(teamIds)(x);
      FilterAllKept(TeamMatcher(teamIds), parsed);
    }
  }

  /** A failed exchange or a malformed record fails the whole fetch: no partial list. */
  lemma FetchedIncidentsFailure(teamIds: Option<set<string>>, reply: Reply<seq<RawIncident>>)
    ensures reply.NoResponse? ==> FetchedIncidents(teamIds, reply) == Err(ConnectionFailed)
    ensures reply.Response? && IsHttpError(reply.status) ==> FetchedIncidents(teamIds, reply) == Err(HttpError(reply.status))
    ensures reply.Response? && !IsHttpError(reply.status) ==>
      (FetchedIncidents(teamIds, reply).Err? <==> exists k :: 0 <= k < |reply.body| && ParseIncident(reply.body[k]).Err?)
  {
    if reply.Response? && !IsHttpError(reply.status) {
      if ParseAll(reply.body).Ok? {
        ParseAllSucceeds(reply.body);
      } else {
        ParseAllFails(reply.body);
      }
    }
  }

  // ---------------------------------------------------------------------------
  // Sending a page
  // ---------------------------------------------------------------------------

  /** The body of the POST to the create-incident endpoint. */
  datatype CreateIncident = CreateIncident(messageType: string, entityDisplayName: string, stateMessage: string)

  /** The decoded reply of the create-incident endpoint. */
  datatype PageReply = PageReply(result: Option<string>, message: Option<string>)

  /** `send_page` after the POST: a failed exchange or an error status raises before the
    * body is looked at; then `result` must be "success", or `VictorOpsError` carries the
    * body's `message` (empty when absent). */
  function PageOutcome(reply: Reply<PageReply>): (r: Result<()>)
    ensures r.Ok? <==> reply.Response? && !IsHttpError(reply.status) && reply.body.result == Some("success")
    ensures reply.NoResponse? ==> r == Err(ConnectionFailed)
    ensures reply.Response? && IsHttpError(reply.status) ==> r == Err(HttpError(reply.status))
    ensures reply.Response? && !IsHttpError(reply.status) && reply.body.result.None? ==> r == Err(MissingField("result"))
    ensures (reply.Response? && !IsHttpError(reply.status) && reply.body.result.Some? &&
             reply.body.result.value != "success") ==> r == Err(VictorOpsError(reply.body.message.GetOr("")))
    ensures r.Err? && r.error.VictorOpsError? ==>
      reply.Response? && reply.body.result.Some? && reply.body.result.value != "success" &&
      r.error.message == reply.body.message.GetOr("")
  {
    match CheckStatus(reply)
    case Err(e) => Err(e)
    case Ok(j) =>
      if j.result.None? then Err(MissingField("result"))
      else if j.result.value != "success" then Err(VictorOpsError(j.message.GetOr("")))
      else Ok(())
  }

  /** `send_page`: the request sent and what the call returns or raises. */
  method SendPage(summary: string, description: string, reply: Reply<PageReply>)
    returns (sent: CreateIncident, r: Result<()>)
    ensures sent.messageType == "CRITICAL" && sent.entityDisplayName == summary && sent.stateMessage == description
    ensures r == PageOutcome(reply)
  {
    sent := CreateIncident("CRITICAL", summary, description);
    r := PageOutcome(reply);
  }

  // ---------------------------------------------------------------------------
  // On-call listing
  // ---------------------------------------------------------------------------

  /** One `oncallNow` entry: an escalation policy slug and its on-call usernames. */
  datatype PolicyOnCall = PolicyOnCall(policySlug: string, usernames: seq<string>)

  /** One `teamsOnCall` entry: a team slug and its policies. */
  datatype TeamOnCall = TeamOnCall(teamSlug: string, oncallNow: seq<PolicyOnCall>)

  /** Usernames of the policies that pass the policy filter, policy by policy. */
  function PolicyNames(policyIds: Option<set<string>>, ps: seq<PolicyOnCall>): (names: seq<string>)
    ensures |names| <= TotalInPolicies(ps)
  {
    if ps == [] then []
    else PolicyNames(policyIds, Init(ps)) + (if Admits(policyIds, Last(ps).policySlug) then Last(ps).usernames else [])
  }

  /** Usernames of the teams that pass the team filter, team by team. */
  function OncallNames(teamIds: Option<set<string>>, policyIds: Option<set<string>>, ts: seq<TeamOnCall>): (names: seq<string>)
    ensures |names| <= TotalOncall(ts)
  {
    if ts == [] then []
    else
      var team := Last(ts);
      OncallNames(teamIds, policyIds, Init(ts)) +
      (if Admits(teamIds, team.teamSlug) then PolicyNames(policyIds, team.oncallNow) else [])
  }

  lemma {:induction false} PolicyNamesMembership(policyIds: Option<set<string>>, ps: seq<PolicyOnCall>, u: string)
    ensures u in PolicyNames(policyIds, ps) <==>
      exists j :: 0 <= j < |ps| && Admits(policyIds, ps[j].policySlug) && u in ps[j].usernames
  {
    if ps != [] {
      PolicyNamesMembership(policyIds, Init(ps), u);
      assert forall j :: 0 <= j < |ps| - 1 ==> ps[j] == Init(ps)[j];
    }
  }

  /** A username is listed iff it is on call for an admitted policy of an admitted team. */
  lemma {:induction false} OncallNamesMembership(teamIds: Option<set<string>>, policyIds: Option<set<string>>,
                                                 ts: seq<TeamOnCall>, u: string)
    ensures u in OncallNames(teamIds, policyIds, ts) <==>
      exists i, j :: 0 <= i < |ts| && Admits(teamIds, ts[i].teamSlug) &&
        0 <= j < |ts[i].oncallNow| && Admits(policyIds, ts[i].oncallNow[j].policySlug) &&
        u in ts[i].oncallNow[j].usernames
  {
    if ts != [] {
      OncallNamesMembership(teamIds, policyIds, Init(ts), u);
      PolicyNamesMembership(policyIds, Last(ts).oncallNow, u);
      assert forall i :: 0 <= i < |ts| - 1 ==> ts[i] == Init(ts)[i];
      assert Last(ts) == ts[|ts| - 1];
    }
  }

  /** Without filters every username is listed, in order and with repetitions. */
  lemma {:induction false} OncallNamesUnfiltered(ts: seq<TeamOnCall>)
    ensures |OncallNames(None, None, ts)| == TotalOncall(ts)
  {
    if ts != [] {
      OncallNamesUnfiltered(Init(ts));
      PolicyNamesUnfiltered(Last(ts).oncallNow);
    }
  }

  lemma {:induction false} PolicyNamesUnfiltered(ps: seq<PolicyOnCall>)
    ensures |PolicyNames(None, ps)| == TotalInPolicies(ps)
  {
    if ps != [] {
      PolicyNamesUnfiltered(Init(ps));
    }
  }

  function TotalInPolicies(ps: seq<PolicyOnCall>): nat {
    if ps == [] then 0 else TotalInPolicies(Init(ps)) + |Last(ps).usernames|
  }

  /** The number of on-call entries in a listing, duplicates included. */
  function TotalOncall(ts: seq<TeamOnCall>): nat {
    if ts == [] then 0 else TotalOncall(Init(ts)) + TotalInPolicies(Last(ts).oncallNow)
  }

  // ---------------------------------------------------------------------------
  // Rerouting and escalation
  // ---------------------------------------------------------------------------

  datatype RerouteTarget = RerouteTarget(kind: string, slug: string)
  datatype Reroute = Reroute(incidentNumber: string, targets: seq<RerouteTarget>)
  datatype RerouteRequest = RerouteRequest(userName: string, reroutes: seq<Reroute>)

  /** The requests a call sends upstream, in order. */
  datatype Request = GetIncidents | PostReroute(payload: RerouteRequest)

  const DefaultEscalator: string := "escalator_sysuser"

  /** The reroute body: one reroute per incident, in order, each to the one policy. */
  function ReroutePayload(incidents: seq<Incident>, policy: string, username: string): (p: RerouteRequest)
    ensures p.userName == username && |p.reroutes| == |incidents|
    ensures forall k :: 0 <= k < |incidents| ==>
      p.reroutes[k].incidentNumber == incidents[k].id &&
      p.reroutes[k].targets == [RerouteTarget("EscalationPolicy", policy)]
  {
    RerouteRequest(username,
      seq(|incidents|, k requires 0 <= k < |incidents| =>
        Reroute(incidents[k].id, [RerouteTarget("EscalationPolicy", policy)])))
  }

  /** An incident whose escalation reached nobody: not acked, and nobody being paged. */
  const IsUnpaged: Incident -> bool := (ii: Incident) => !ii.acked && ii.pagedUsers == {}

  /** The list comprehension of `escalate_unpaged_incidents`. */
  function Unpaged(xs: seq<Incident>): (r: seq<Incident>)
    ensures forall x :: x in r <==> x in xs && !x.acked && x.pagedUsers == {}
  {
    FilterMembership(IsUnpaged, xs);
    Filter(IsUnpaged, xs)
  }

  /** The unpaged incidents keep their fetch order and their multiplicity. */
  lemma UnpagedSelection(xs: seq<Incident>)
    ensures IsSubsequence(Unpaged(xs), xs)
    ensures forall x :: multiset(Unpaged(xs))[x] == if !x.acked && x.pagedUsers == {} then multiset(xs)[x] else 0
  {
    FilterIsSubsequence(IsUnpaged, xs);
    forall x ensures multiset(Unpaged(xs))[x] == if !x.acked && x.pagedUsers == {} then multiset(xs)[x] else 0 {
      FilterCount(IsUnpaged, xs, x);
    }
  }

  // ---------------------------------------------------------------------------
  // Escalation policies
  // ---------------------------------------------------------------------------

  datatype PolicyEntry = PolicyEntry(executionType: string)
  datatype PolicyStep = PolicyStep(timeout: int, entries: seq<PolicyEntry>)

  /** `any(e['executionType'] == 'rotation_group' for e in entries)`. */
  function HasRotationGroup(entries: seq<PolicyEntry>): (b: bool)
    ensures b <==> exists e :: e in entries && e.executionType == "rotation_group"
  {
    if entries == [] then false
    else entries[0].executionType == "rotation_group" || HasRotationGroup(entries[1..])
  }

  /** The outer `any(...)` over the steps. It yields the step records themselves, and a step
    * that passes the test has keys, so it is truthy: the scan is an existential. */
  function AnyImmediateRotation(steps: seq<PolicyStep>): (b: bool)
    ensures b <==> exists s :: (s in steps && s.timeout == 0 &&
                                exists e :: e in s.entries && e.executionType == "rotation_group")
  {
    if steps == [] then false
    else (steps[0].timeout == 0 && HasRotationGroup(steps[0].entries)) || AnyImmediateRotation(steps[1..])
  }

  /** `check_policy_pages_immediately` on the reply of `GET api-public/v1/policies/<slug>`. */
  function PagesImmediately(reply: Reply<seq<PolicyStep>>): (r: Result<bool>)
    ensures r.Ok? <==> reply.Response? && !IsHttpError(reply.status)
    ensures r.Err? ==> r == Err(CheckStatus(reply).error)
    ensures r.Ok? ==> (r.value <==> exists s, e :: (s in reply.body && e in s.entries &&
                                                    s.timeout == 0 && e.executionType == "rotation_group"))
  {
    match CheckStatus(reply)
    case Err(e) => Err(e)
    case Ok(steps) => Ok(AnyImmediateRotation(steps))
  }

  // ---------------------------------------------------------------------------
  // The client object
  // ---------------------------------------------------------------------------

  /** `VictorOps`: holds the two normalised filters; the rest of its configuration only
    * shapes HTTP requests, which are not modelled. */
  class Client {
    var teamIds: Option<set<string>>
    var escPolicyIds: Option<set<string>>

    constructor (teamIds: FilterArg, escPolicyIds: FilterArg)
      ensures this.teamIds == NormalizeFilter(teamIds)
      ensures this.escPolicyIds == NormalizeFilter(escPolicyIds)
    {
      this.teamIds := NormalizeFilter(teamIds);
      this.escPolicyIds := NormalizeFilter(escPolicyIds);
    }

    /** `fetch_incidents`: parse every record in order, keeping those that match the teams. */
    method FetchIncidents(reply: Reply<seq<RawIncident>>) returns (r: Result<seq<Incident>>)
      ensures r == FetchedIncidents(teamIds, reply)
    {
      var body := CheckStatus(reply);
      if body.Err? {
        return Err(body.error);
      }
      var raws := body.value;
      var kept: seq<Incident> := [];
      ghost var parsed: seq<Incident> := [];
      var i := 0;
      while i < |raws|
        invariant 0 <= i <= |raws|
        invariant ParseAll(raws[..i]) == Ok(parsed)
        invariant kept == Filter(TeamMatcher(teamIds), parsed)
      {
        assert Init(raws[..i + 1]) == raws[..i];
        var ii := ParseIncident(raws[i]);
        if ii.Err? {
          assert ParseAll(raws[..i + 1]) == Err(ii.error);
          ParseAllPrefixError(raws, i + 1);
          return Err(ii.error);
        }
        if MatchesTeams(teamIds, ii.value) {
          kept := kept + [ii.value];
        }
        parsed := parsed + [ii.value];
        i := i + 1;
      }
      assert raws[..i] == raws;
      r := Ok(kept);
    }

    /** `fetch_oncallers`: team by team, policy by policy, user by user, skipping teams
      * and policies outside an active filter. */
    method FetchOncallers(reply: Reply<seq<TeamOnCall>>) returns (r: Result<seq<string>>)
      ensures r.Err? <==> CheckStatus(reply).Err?
      ensures r.Err? ==> r == Err(CheckStatus(reply).error)
      ensures r.Ok? ==> r.value == OncallNames(teamIds, escPolicyIds, reply.body)
    {
      var body := CheckStatus(reply);
      if body.Err? {
        return Err(body.error);
      }
      var ts := body.value;
      var names: seq<string> := [];
      var i := 0;
      while i < |ts|
        invariant 0 <= i <= |ts|
        invariant names == OncallNames(teamIds, escPolicyIds, ts[..i])
      {
        assert Init(ts[..i + 1]) == ts[..i];
        var t := ts[i];
        if Active(teamIds) && t.teamSlug !in teamIds.value {
          i := i + 1;
          continue;
        }
        var j := 0;
        while j < |t.oncallNow|
          invariant 0 <= j <= |t.oncallNow|
          invariant names == OncallNames(teamIds, escPolicyIds, ts[..i]) + PolicyNames(escPolicyIds, t.oncallNow[..j])
        {
          assert Init(t.oncallNow[..j + 1]) == t.oncallNow[..j];
          var o := t.oncallNow[j];
          if Active(escPolicyIds) && o.policySlug !in escPolicyIds.value {
            j := j + 1;
            continue;
          }
          var k := 0;
          while k < |o.usernames|
            invariant 0 <= k <= |o.usernames|
            invariant names == OncallNames(teamIds, escPolicyIds, ts[..i]) +
              PolicyNames(escPolicyIds, t.oncallNow[..j]) + o.usernames[..k]
          {
            names := names + [o.usernames[k]];
            k := k + 1;
          }
          assert o.usernames[..k] == o.usernames;
          j := j + 1;
        }
        assert t.oncallNow[..j] == t.oncallNow;
        i := i + 1;
      }
      assert ts[..i] == ts;
      r := Ok(names);
    }

    /** `reroute_incidents`: nothing is sent for an empty list; otherwise one POST naming
      * every incident, and the decoded reply is returned. */
    method RerouteIncidents<B>(incidents: seq<Incident>, policy: string, username: string, reply: Reply<B>)
      returns (sent: seq<Request>, r: Result<Option<B>>)
      ensures incidents == [] ==> sent == [] && r == Ok(None)
      ensures incidents != [] ==> sent == [PostReroute(ReroutePayload(incidents, policy, username))]
      ensures incidents != [] ==> (r.Ok? <==> reply.Response? && !IsHttpError(reply.status))
      ensures incidents != [] && r.Ok? ==> r.value == Some(reply.body)
      ensures r.Err? ==> r == Err(CheckStatus(reply).error)
    {
      if incidents == [] {
        return [], Ok(None);
      }
      sent := [PostReroute(ReroutePayload(incidents, policy, username))];
      var j := CheckStatus(reply);
      if j.Err? {
        return sent, Err(j.error);
      }
      r := Ok(Some(j.value));
    }

    /** `escalate_unpaged_incidents`: fetch, select the unpaged incidents, reroute them. */
    method EscalateUnpagedIncidents<B>(policy: string, username: string,
                                       incidentsReply: Reply<seq<RawIncident>>, rerouteReply: Reply<B>)
      returns (sent: seq<Request>, r: Result<Option<B>>)
      ensures var fetched := FetchedIncidents(teamIds, incidentsReply);
        (fetched.Err? ==> sent == [GetIncidents] && r == Err(fetched.error)) &&
        (fetched.Ok? && Unpaged(fetched.value) == [] ==> sent == [GetIncidents] && r == Ok(None)) &&
        (fetched.Ok? && Unpaged(fetched.value) != [] ==>
          sent == [GetIncidents, PostReroute(ReroutePayload(Unpaged(fetched.value), policy, username))] &&
          (r.Ok? <==> rerouteReply.Response? && !IsHttpError(rerouteReply.status)) &&
          (r.Ok? ==> r.value == Some(rerouteReply.body)) &&
          (r.Err? ==> r == Err(CheckStatus(rerouteReply).error)))
    {
      var fetched := FetchIncidents(incidentsReply);
      if fetched.Err? {
        return [GetIncidents], Err(fetched.error);
      }
      var escalatable := Unpaged(fetched.value);
      var more;
      more, r := RerouteIncidents(escalatable, policy, username, rerouteReply);
      sent := [GetIncidents] + more;
    }
  }

  /** Once parsing has failed on a prefix, it fails with the same error on the whole listing. */
  lemma {:induction false} ParseAllPrefixError(raws: seq<RawIncident>, n: nat)
    requires n <= |raws| && ParseAll(raws[..n]).Err?
    ensures ParseAll(raws) == ParseAll(raws[..n])
    decreases |raws| - n
  {
    if n < |raws| {
      assert Init(raws[..n + 1]) == raws[..n];
      ParseAllPrefixError(raws, n + 1);
    } else {
      assert raws[..n] == raws;
    }
  }
}
