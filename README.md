# Klaxon: a verified model of the VictorOps shim and the incident feed

Klaxon is a small web application that lets trusted users manually page SRE through
VictorOps (Splunk On-Call) and shows them a list of recent incidents. This project models
its decision-making core in Dafny and proves properties of that model:

- **`VictorOps` (victorops.dfy)**, the client shim. It covers:
  - normalising the team and escalation-policy filters;
  - parsing incident records, including the summary fallback chain, the `acked` rule and the missing-key failure;
  - team-filtering the incident listing;
  - flattening the on-call structure to usernames;
  - choosing the unpaged incidents and building the reroute request;
  - deciding whether an escalation policy pages a rotation immediately;
  - classifying the outcome of sending a page.

  The `VictorOps` class becomes `Client`. Its two filter fields are reassignable. The generator loops `fetch_incidents` and
  `fetch_oncallers` are methods with loops. Each is proved equal to a specification function,
  and the properties are proved about that function.
- **`Klaxon` (klaxon.dfy)**, the web application's use of the client. It covers:
  - the team filter read from configuration;
  - the user identity and the page headline;
  - `fetch_victorops`, which keeps recent incidents, sorts them stably by time and then reverses them;
  - the one-entry TTL cache, which is filled on a miss and cleared after a page is sent.

  `IncidentCache` and `App` are classes whose methods update the cache slot.
- **`Seqs` (seqs.dfy)** holds generic `Filter`, `Reverse` and `IsSubsequence` with their lemmas. `Wrappers`
  (wrappers.dfy) holds `Option`.
- **`Scenarios` (scenarios.dfy)** restates the situations from the client's test suite as
  lemmas about the model on concrete values.

Every HTTP exchange is an input value, `Reply<B>`. It is either `NoResponse`, meaning the request
itself failed, or `Response(status, body)` with the JSON body already decoded into a datatype.
`raise_for_status` is modelled as the requests library defines it: it raises for a status from 400
through 599. Statuses outside 400–599, including 1xx and 3xx, reach the body. Raised exceptions become `Err` values of `Result`:
- `ConnectionFailed`;
- `HttpError(status)`;
- `VictorOpsError(message)`;
- `MissingField(key)` for a `KeyError` on a required record key.

Timestamps are whole seconds. Two clocks appear as parameters: the cache's clock `tick` and the
wall clock `now`.

## Model

| member | source | states |
|---|---|---|
| VictorOps.NormalizeFilter | klaxon/victorops.py:67-72 | a non-empty string gives its singleton, a non-empty set gives itself, and `None`, `""` or an empty set give no filter; the result is present exactly when it is an active (non-empty) filter |
| VictorOps.CheckStatus | klaxon/victorops.py:112-113 | the body is returned iff there was a response whose status is not 400–599; a failed request is a connection error and an error status is an HTTP error carrying that status |
| VictorOps.Client.constructor | klaxon/victorops.py:67-74 | both filter fields are the normalised constructor arguments |
| VictorOps.FirstTruthy | klaxon/victorops.py:123-124 | the result is the first candidate that is present and non-empty, or the fallback when there is none; a non-empty fallback gives a non-empty result |
| VictorOps.ParseIncident | klaxon/victorops.py:122-130 | parsing succeeds iff all five required keys are present; a failure names a missing key; the summary is the first truthy of service, entityDisplayName and monitorName, else "unknown alert", and never empty; `acked` is false exactly for phase "UNACKED"; the id and start time are copied, and the users and teams are the sets of the listed ones |
| VictorOps.ParseIncidentReportsFirstMissing | klaxon/victorops.py:125-130 | the reported key is the first absent one in the order the constructor call evaluates them |
| VictorOps.ParseAllSucceeds | klaxon/victorops.py:143-144 | a listing that parses yields, at each position, the parse of the record at that position |
| VictorOps.ParseAllRecordWise | klaxon/victorops.py:143-144 | records that each parse make a listing that parses to exactly those incidents, in order |
| VictorOps.ParseAllFails | klaxon/victorops.py:143-144 | a listing that fails carries the error of a record all of whose predecessors parse, i.e. the first malformed record |
| VictorOps.ParseAllPrefixError | klaxon/victorops.py:143-146 | once a prefix of the listing fails, the whole listing fails with the same error |
| VictorOps.ParseAll | klaxon/victorops.py:143-144 | a listing that parses yields one incident per record |
| VictorOps.MatchesTeams | klaxon/victorops.py:117-120 | an incident matches iff no team filter is active or it was routed to some team in the filter |
| VictorOps.TeamMatcher | klaxon/victorops.py:117-120 | the filter function admits an incident iff no team filter is active or the incident shares a team with it |
| VictorOps.FetchedIncidents | klaxon/victorops.py:140-146 | the fetch succeeds iff the response has no error status and every record parses, a failed exchange gives its own error, a malformed record on a good reply gives the listing's parse error (the first malformed record's missing key), and never more incidents than records come back |
| VictorOps.FetchedIncidentsSelection | klaxon/victorops.py:117-146 | on a good reply the result is a subsequence of the parsed incidents, in response order, holding exactly those routed to some team in the filter, each as many times as it was parsed (and the others not at all); with no active filter it is all of them |
| VictorOps.FetchedIncidentsFailure | klaxon/victorops.py:140-146 | a failed request or an error status fails the fetch with that error; on a good reply the fetch fails iff some record is malformed |
| VictorOps.Client.FetchIncidents | klaxon/victorops.py:132-146 | the loop over the records returns exactly `FetchedIncidents` for the client's team filter |
| VictorOps.PolicyNames | klaxon/victorops.py:155-160 | the usernames listed for one team, policy by policy, are never more than its on-call entries |
| VictorOps.OncallNames | klaxon/victorops.py:152-160 | the usernames listed team by team are never more than the on-call entries of the listing |
| VictorOps.PolicyNamesMembership | klaxon/victorops.py:155-160 | a username is listed for a team iff it is on call for one of its policies that the policy filter admits |
| VictorOps.OncallNamesMembership | klaxon/victorops.py:152-160 | a username is listed iff it is on call for an admitted policy of an admitted team |
| VictorOps.PolicyNamesUnfiltered | klaxon/victorops.py:155-160 | without a policy filter every on-call entry of a team is listed, duplicates included |
| VictorOps.OncallNamesUnfiltered | klaxon/victorops.py:152-160 | without filters the listing has one username per on-call entry, so nothing is deduplicated or dropped |
| VictorOps.Client.FetchOncallers | klaxon/victorops.py:148-160 | the three nested loops with `continue` return the usernames team by team, policy by policy, user by user, as `OncallNames` defines; a failed exchange is its error |
| VictorOps.PageOutcome | klaxon/victorops.py:111-115 | success iff the response has no error status and its result is "success"; a failed request or error status fails before the body is read; a missing `result` is a missing key; any result other than "success" raises `VictorOpsError` with the body's message, or "" when absent, and only such a result does |
| VictorOps.SendPage | klaxon/victorops.py:105-115 | the posted payload is CRITICAL with the summary as entity display name and the description as state message, and the outcome is `PageOutcome` |
| VictorOps.ReroutePayload | klaxon/victorops.py:166-170 | the request names the given user and holds one reroute per incident, in order, each carrying that incident's number and the single target EscalationPolicy/policy |
| VictorOps.Client.RerouteIncidents | klaxon/victorops.py:162-175 | an empty list sends nothing and returns nothing; otherwise exactly one POST with the reroute payload is sent, and the decoded reply is returned unless the exchange failed |
| VictorOps.Unpaged | klaxon/victorops.py:184 | an incident is escalatable iff it was fetched, is not acked and has nobody paged |
| VictorOps.UnpagedSelection | klaxon/victorops.py:184 | the escalatable incidents keep fetch order, and each unpaged incident appears as often as it was fetched while the others do not appear |
| VictorOps.Client.EscalateUnpagedIncidents | klaxon/victorops.py:177-185 | the incidents are fetched first; a failed fetch stops there; otherwise the unpaged ones are rerouted, and no POST is sent when there are none; when they are rerouted, the reroute reply's body is returned, or its error when the exchange failed |
| VictorOps.HasRotationGroup | klaxon/victorops.py:195 | true iff some entry has execution type "rotation_group" |
| VictorOps.AnyImmediateRotation | klaxon/victorops.py:194-195 | true iff some step has timeout 0 and an entry of type "rotation_group" |
| VictorOps.PagesImmediately | klaxon/victorops.py:187-195 | the check fails exactly when the exchange fails, with that exchange's error; otherwise it answers whether some step with timeout 0 has a rotation_group entry |
| Klaxon.ConfigFromEnvironment | klaxon/__init__.py:36-60 | an unset cache TTL is 10 seconds and an unset recency window 60 minutes; set values and the team filter setting are taken as given |
| Klaxon.Split | klaxon/__init__.py:80 | splitting on commas gives at least one piece, and no piece holds a comma |
| Klaxon.JoinSplit | klaxon/__init__.py:80 | joining the pieces with commas gives back the setting, so the split loses nothing |
| Klaxon.TeamIdsFromConfig | klaxon/__init__.py:78-82 | the team ids are empty iff the setting is unset or empty; otherwise they are exactly the comma-separated pieces |
| Klaxon.ConfiguredTeamFilter | klaxon/__init__.py:78-88 | once the client normalises it, a non-empty setting is an active filter on its pieces and an unset or empty one is no filter at all |
| Klaxon.Username | klaxon/__init__.py:108-113 | the authentication header's value, or "unknown" when the header is absent |
| Klaxon.UserIdentity | klaxon/__init__.py:120-126 | "user (email)" when the email header is present and non-empty, else the bare username; the identity always starts with the username |
| Klaxon.Headline | klaxon/__init__.py:149 | the headline is "Manual #page by ", then the identity, then ": ", then the summary, each at its position and nothing else |
| Klaxon.HeadlineInjective | klaxon/__init__.py:149 | for one identity, equal headlines come from equal summaries |
| Klaxon.InsertByTime | klaxon/__init__.py:104 | inserting adds exactly the one incident (multiset) |
| Klaxon.SortByTime | klaxon/__init__.py:104 | the sort is a permutation (multiset) |
| Klaxon.InsertByTimeAscending | klaxon/__init__.py:104 | inserting into an ascending list keeps it ascending by time |
| Klaxon.SortByTimeAscending | klaxon/__init__.py:104 | the sorted list is ascending by time |
| Klaxon.InsertByTimeStable | klaxon/__init__.py:104 | insertion keeps the relative order of the incidents that share any one time |
| Klaxon.SortByTimeStable | klaxon/__init__.py:104 | the sort is stable: for each time, the incidents with that time keep their input order |
| Klaxon.RecentFirst | klaxon/__init__.py:103-105 | the kept, sorted and reversed list is non-increasing by time and a permutation of the incidents inside the window |
| Klaxon.RecentFirstSelection | klaxon/__init__.py:100-106 | the feed is non-increasing by time; it is a permutation of the incidents with `now - time < window`; an incident is in it iff it was fetched and is strictly inside the window, future-dated ones included |
| Klaxon.RecentFirstTies | klaxon/__init__.py:103-105 | incidents with the same start time appear in the reverse of their fetch order, and either all or none of them are kept |
| Klaxon.IncidentCache.constructor | klaxon/__init__.py:74-75 | a new cache is empty and has the configured TTL |
| Klaxon.IncidentCache.Lookup | klaxon/__init__.py:97 | a lookup finds the stored list iff there is an entry and the clock is before its expiry |
| Klaxon.IncidentCache.Store | klaxon/__init__.py:97-106 | storing replaces the slot with the one new entry, expiring TTL ticks later |
| Klaxon.IncidentCache.Clear | klaxon/__init__.py:155-156 | after clearing the slot is empty and no lookup can hit |
| Klaxon.App.constructor | klaxon/__init__.py:74-88 | an empty cache with the configured TTL, a window of the configured minutes in seconds, and a client filtering on the configured teams (none when unset) and on no policy |
| Klaxon.App.Refill | klaxon/__init__.py:100-106 | on a miss the result is the recent incidents newest first, or the fetch error; a successful result is stored until tick + TTL and a failure leaves the cache alone |
| Klaxon.App.FetchVictorOps | klaxon/__init__.py:97-106 | it fetches iff the cache misses; a hit returns the stored list unchanged; a miss returns the recent incidents newest first (or the fetch error) and stores a successful result until tick + TTL, leaving the cache alone on failure; every result and cached list is newest first |
| Klaxon.App.SubmitPage | klaxon/__init__.py:144-156 | the page is sent with the headline as its summary; the outcome is the send's outcome; after a successful send the cache is empty so the next read is a miss, and after a failed one it is unchanged |
| Scenarios.RecordParses | klaxon/victorops.py:122-130 | a record with a service, a phase, a start time, one team and a user list parses to the incident built from them |
| Scenarios.ParsedListing | klaxon/tests/test_victorops.py:69-142 | the five records of the incidents test parse to the four expected incidents followed by incident 67 |
| Scenarios.OneTeamKept | klaxon/victorops.py:117-120 | a one-team filter keeps incidents routed to that team and drops one routed elsewhere |
| Scenarios.TeamSreKept | klaxon/tests/test_victorops.py:104-148 | the team-sre filter keeps the four team-sre incidents and drops incident 67 |
| Scenarios.FetchOfParsedListing | klaxon/victorops.py:140-146 | a 200 reply whose records parse yields the parsed incidents that the team filter admits |
| Scenarios.FetchDropsOtherTeam | klaxon/tests/test_victorops.py:143-148 | fetching that listing with the team-sre filter gives exactly the four expected incidents |
| Scenarios.EscalatesOnlyUnpaged | klaxon/tests/test_victorops.py:157-167 | only incident 61 is unpaged, and the reroute request sends it to pol-batphone as escalator_sysuser |
| Scenarios.OncallersFiltered | klaxon/tests/test_victorops.py:200-232 | with the team and policy filters of the test only cdanis and rzl are listed |
| Scenarios.RecencyWindow | klaxon/__init__.py:103 | in a 60-minute window an incident 5 minutes old is shown and one 120 minutes old is not |
| Scenarios.SortsThree | klaxon/__init__.py:104 | three incidents already in ascending time order are left in place by the sort |
| Scenarios.ReversesThree | klaxon/__init__.py:105 | reversing three incidents puts the last first |
| Scenarios.NewestFirst | klaxon/__init__.py:103-105 | for any window holding the oldest of three incidents at times t1 < t2 < t3, future-dated ones included, they come out as t3, t2, t1 |
| Scenarios.PageOutcomes | klaxon/tests/test_victorops.py:41-65 | a 503 is an HTTP error, a failed connection is a connection error, result "failure" raises `VictorOpsError("")`, and "success" succeeds |

## Left out

- HTTP plumbing is not modelled: the session, `urljoin` of the endpoint paths (including the policy slug in the policy URL), the User-Agent and `X-VO-Api-*` headers, and the body of `raise_for_status`. A reply is an input value, and only its status and decoded body matter.
- JSON decoding is not modelled. A body that is not JSON, a missing top-level key (`incidents`, `teamsOnCall`, `steps`), a missing key inside the on-call, policy or reroute structures, and values of the wrong JSON type are all outside the model. The datatypes assume those keys are present. Only the incident record's keys (the five indexed with `[]` and the three summary candidates) and the page reply's `result` and `message` may be absent.
- JSON null values are not modelled separately from absent keys, and the model reports a missing key for both. The source treats null differently:
  - a null `currentPhase` gives an acked incident;
  - a null `incidentNumber` gives an incident whose id is `None`;
  - a null `result` in the page reply raises `VictorOpsError`;
  - a null `message` is carried as `None` rather than "".
- Start times are integer seconds. `dateutil.parser.isoparse` and sub-second precision are not modelled (the test data's .62204 seconds are dropped).
- The cache TTL and the recency window are non-negative integers, not the floats the configuration parser accepts (negative and fractional values are not modelled).
- Cache expiry: a hit is exactly `tick < expiry` under a single monotonic clock. How the cache library expires entries internally is not modelled.
- The `threading.RLock` single-flight behaviour is not modelled. The cache is used sequentially.
- Generators are modelled as complete lists. The usernames or incidents yielded before a malformed record or a missing key fails the iteration are not captured. `fetch_incidents` reports only the error.
- Klaxon.SortByTime: `list.sort` and `list.reverse` work in place in the source. The model computes new sequences (a stable insertion sort and a reversal) and proves sortedness, permutation and stability about them. Aliasing of the list is not captured.
- The Flask application is not modelled: routes, templates, `flash`, `redirect`, ProxyFix, the production-only `Forbidden` check for a missing authentication header, the debug pages and the IRC `SALSocketHandler` announcement of the headline. `get_username` is reduced to the header or "unknown".
- The command-line entry point of klaxon/victorops.py (lines 198-252) and setup.py are not part of this model.
