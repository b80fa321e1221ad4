/**
 * Usage collection for an IAM role (backend-engines/cloudtrail_usage_collector.py):
 * CloudTrail events are deduplicated by EventId and summarised, the Access
 * Advisor service list is summarised, and both are merged into usage metrics
 * whose pattern is NONE, LOW, MEDIUM or HIGH.
 *
 * The AWS queries are parameters: each source is the list it returned, or
 * the error it raised. Timestamps are day numbers, so "days since" is a
 * difference of day numbers.
 */
module UsageCollector {
  import opened Common

  datatype UsagePattern = PatternNone | PatternLow | PatternMedium | PatternHigh

  /** _classify_usage_pattern. */
  function ClassifyUsagePattern(eventCount: int, daysSinceUse: int, lookbackDays: int): (p: UsagePattern)
    ensures p == PatternNone <==> eventCount == 0 || daysSinceUse > lookbackDays
    ensures p == PatternLow <==>
      !(eventCount == 0 || daysSinceUse > lookbackDays) && (eventCount < 10 || daysSinceUse > 30)
    ensures p == PatternHigh <==>
      !(eventCount == 0 || daysSinceUse > lookbackDays) && eventCount > 100 && daysSinceUse < 7
    ensures p == PatternMedium <==>
      eventCount != 0 && 10 <= eventCount && daysSinceUse <= lookbackDays && daysSinceUse <= 30
      && !(eventCount > 100 && daysSinceUse < 7)
  {
    if eventCount == 0 || daysSinceUse > lookbackDays then PatternNone
    else if eventCount < 10 || daysSinceUse > 30 then PatternLow
    else if eventCount > 100 && daysSinceUse < 7 then PatternHigh
    else PatternMedium
  }

  /** More events and a more recent use never give a lower pattern. */
  function PatternRank(p: UsagePattern): nat
  {
    match p
    case PatternNone => 0
    case PatternLow => 1
    case PatternMedium => 2
    case PatternHigh => 3
  }

  lemma PatternMonotone(c1: int, d1: int, c2: int, d2: int, lookbackDays: int)
    requires 0 < c1 <= c2 && d2 <= d1
    ensures PatternRank(ClassifyUsagePattern(c1, d1, lookbackDays)) <= PatternRank(ClassifyUsagePattern(c2, d2, lookbackDays))
  {
  }

  // ---------------------------------------------------------------------
  // CloudTrail events
  // ---------------------------------------------------------------------

  /** What the CloudTrailEvent JSON of an event gave: absent, unparseable, or its userIdentity keys. */
  datatype EventDetail = NoDetail | UnparseableDetail | Identity(principalId: Option<string>, userName: Option<string>)

  datatype Event = Event(eventId: string, eventName: Option<string>, detail: EventDetail, eventTime: Option<int>)

  /** A Python dict built by assignment: its keys in first-insertion order, and the entries. */
  datatype EventDict = EventDict(order: seq<string>, byId: map<string, Event>)

  predicate Distinct<T(==)>(xs: seq<T>)
  {
    forall i, j :: 0 <= i < j < |xs| ==> xs[i] != xs[j]
  }

  /**
   * `{e["EventId"]: e for e in events}`: one entry per distinct id, in the
   * order the ids first appear, holding the last event with that id.
   */
  function DedupById(events: seq<Event>): (d: EventDict)
    ensures |d.order| <= |events|
  {
    if events == [] then EventDict([], map[])
    else
      var e := events[|events| - 1];
      var d := DedupById(events[..|events| - 1]);
      if e.eventId in d.byId then EventDict(d.order, d.byId[e.eventId := e])
      else EventDict(d.order + [e.eventId], d.byId[e.eventId := e])
  }

  /** The dict's keys are listed once each in its order, and the last event with an id wins. */
  lemma {:induction false} DedupKeys(events: seq<Event>)
    ensures var d := DedupById(events);
      Distinct(d.order)
      && (forall id :: id in d.order <==> id in d.byId)
      && (events != [] ==> d.byId[events[|events| - 1].eventId] == events[|events| - 1])
  {
    if events != [] {
      DedupKeys(events[..|events| - 1]);
    }
  }

  /** The dict's keys are exactly the events' ids. */
  lemma {:induction false} DedupIds(events: seq<Event>)
    ensures forall id :: id in DedupById(events).order <==> exists i :: 0 <= i < |events| && events[i].eventId == id
  {
    if events != [] {
      var init := events[..|events| - 1];
      DedupIds(init);
      DedupKeys(init);
      assert forall i :: 0 <= i < |init| ==> init[i] == events[i];
    }
  }

  /** Every entry is an input event stored under its own id. */
  lemma {:induction false} DedupEntries(events: seq<Event>)
    ensures forall id :: id in DedupById(events).byId ==>
      DedupById(events).byId[id].eventId == id && DedupById(events).byId[id] in events
  {
    if events != [] {
      var init := events[..|events| - 1];
      DedupEntries(init);
      var e := events[|events| - 1];
      var before := DedupById(init).byId;
      var after := DedupById(events).byId;
      assert after == before[e.eventId := e];
      forall id | id in after
        ensures after[id].eventId == id && after[id] in events
      {
        if id != e.eventId {
          assert after[id] == before[id] && before[id] in init;
        }
      }
    }
  }

  /** The deduplicated events, in the dict's order: distinct ids, every id kept. */
  function UniqueEvents(events: seq<Event>): (r: seq<Event>)
    ensures Ids(r) == DedupById(events).order
    ensures Distinct(Ids(r))
    ensures forall i :: 0 <= i < |r| ==> r[i] in events
    ensures forall e :: e in events ==> e.eventId in Ids(r)
  {
    var d := DedupById(events);
    DedupKeys(events);
    DedupIds(events);
    DedupEntries(events);
    var r := seq(|d.order|, i requires 0 <= i < |d.order| => d.byId[d.order[i]]);
    assert Ids(r) == d.order;
    forall e | e in events
      ensures e.eventId in d.order
    {
      var k :| 0 <= k < |events| && events[k] == e;
      assert events[k].eventId == e.eventId;
    }
    r
  }

  /** The ids of a list of events, in order. */
  function Ids(events: seq<Event>): (ids: seq<string>)
    ensures |ids| == |events| && forall i :: 0 <= i < |events| ==> ids[i] == events[i].eventId
  {
    seq(|events|, i requires 0 <= i < |events| => events[i].eventId)
  }

  /**
   * The items of `xs` without repetitions, as `list(set(xs))` gives them.
   * Python leaves that order to the hashes of the strings; the model fixes
   * it to first-seen order, and only membership and distinctness
   * (FirstSeenItems) are promises of the source.
   */
  function FirstSeen(xs: seq<string>): (r: seq<string>)
    ensures |r| <= |xs|
  {
    if xs == [] then []
    else
      var r := FirstSeen(xs[..|xs| - 1]);
      if xs[|xs| - 1] in r then r else r + [xs[|xs| - 1]]
  }

  /** FirstSeen keeps exactly the items of its input, each once. */
  lemma {:induction false} FirstSeenItems(xs: seq<string>)
    ensures Distinct(FirstSeen(xs))
    ensures forall x :: x in FirstSeen(xs) <==> x in xs
  {
    if xs != [] {
      var init := xs[..|xs| - 1];
      FirstSeenItems(init);
      assert forall x :: x in xs <==> x in init || x == xs[|xs| - 1];
    }
  }

  /** Adding one item to the input adds it to FirstSeen unless already present. */
  lemma FirstSeenSnoc(xs: seq<string>, x: string)
    ensures FirstSeen(xs + [x]) == if x in FirstSeen(xs) then FirstSeen(xs) else FirstSeen(xs) + [x]
  {
    assert (xs + [x])[..|xs|] == xs;
  }

  function EventName(e: Event): string
  {
    GetOr(e.eventName, "Unknown")
  }

  /** The principal an event's detail names, if it parsed. */
  function PrincipalOf(e: Event): Option<string>
  {
    match e.detail
    case Identity(principalId, userName) => Some(GetOr(principalId, GetOr(userName, "Unknown")))
    case _ => None
  }

  function Names(events: seq<Event>): (r: seq<string>)
    ensures |r| == |events| && forall i :: 0 <= i < |events| ==> r[i] == EventName(events[i])
  {
    seq(|events|, i requires 0 <= i < |events| => EventName(events[i]))
  }

  function Principals(events: seq<Event>): seq<string>
  {
    if events == [] then []
    else
      var e := events[|events| - 1];
      Principals(events[..|events| - 1]) + (if PrincipalOf(e).Some? then [PrincipalOf(e).value] else [])
  }

  /** Principals names exactly the principals the parsed events name. */
  lemma {:induction false} PrincipalsNamed(events: seq<Event>)
    ensures forall p :: p in Principals(events) <==>
      exists i :: 0 <= i < |events| && PrincipalOf(events[i]) == Some(p)
  {
    if events != [] {
      var init := events[..|events| - 1];
      PrincipalsNamed(init);
      assert forall i :: 0 <= i < |init| ==> init[i] == events[i];
    }
  }

  /** The latest event time, ignoring events without one. */
  function LatestTime(events: seq<Event>): (t: Option<int>)
  {
    if events == [] then None
    else
      var rest := LatestTime(events[..|events| - 1]);
      var time := events[|events| - 1].eventTime;
      if time.Some? && (rest.None? || time.value > rest.value) then time else rest
  }

  /** LatestTime is an event's time, no event is later, and it is absent only when no event has a time. */
  lemma {:induction false} LatestTimeIsMaximum(events: seq<Event>)
    ensures LatestTime(events).None? <==> forall i :: 0 <= i < |events| ==> events[i].eventTime.None?
    ensures LatestTime(events).Some? ==> exists i :: 0 <= i < |events| && events[i].eventTime == LatestTime(events)
    ensures forall i :: 0 <= i < |events| && events[i].eventTime.Some? ==>
      events[i].eventTime.value <= LatestTime(events).value
  {
    if events != [] {
      var init := events[..|events| - 1];
      LatestTimeIsMaximum(init);
      assert forall i :: 0 <= i < |init| ==> init[i] == events[i];
    }
  }

  /** What the CloudTrail query returned: the `available` flag and the summary. */
  datatype CloudTrailData = CloudTrailData(
    eventCount: nat, lastEventTime: Option<int>, uniqueActions: seq<string>, uniquePrincipals: seq<string>,
    available: bool)

  const FailedCloudTrail := CloudTrailData(0, None, [], [], false)

  /** The Access Advisor entry of one service. */
  datatype ServiceAccess = ServiceAccess(serviceName: Option<string>, lastAuthenticated: Option<int>)

  datatype AccessAdvisorData = AccessAdvisorData(
    servicesAccessed: seq<string>, servicesNotAccessed: seq<string>, lastAccessedTime: Option<int>,
    totalServicesGranted: nat, available: bool)

  const FailedAccessAdvisor := AccessAdvisorData([], [], None, 0, false)

  function ServiceName(s: ServiceAccess): string
  {
    GetOr(s.serviceName, "Unknown")
  }

  function AccessedNames(services: seq<ServiceAccess>): seq<string>
  {
    if services == [] then []
    else
      var s := services[|services| - 1];
      AccessedNames(services[..|services| - 1]) + (if s.lastAuthenticated.Some? then [ServiceName(s)] else [])
  }

  function NotAccessedNames(services: seq<ServiceAccess>): seq<string>
  {
    if services == [] then []
    else
      var s := services[|services| - 1];
      NotAccessedNames(services[..|services| - 1]) + (if s.lastAuthenticated.None? then [ServiceName(s)] else [])
  }

  /** Each service is listed exactly once, as accessed or as not accessed. */
  lemma {:induction false} ServicesPartitioned(services: seq<ServiceAccess>)
    ensures |AccessedNames(services)| + |NotAccessedNames(services)| == |services|
  {
    if services != [] {
      ServicesPartitioned(services[..|services| - 1]);
    }
  }

  function LatestAccess(services: seq<ServiceAccess>): Option<int>
  {
    if services == [] then None
    else
      var rest := LatestAccess(services[..|services| - 1]);
      var time := services[|services| - 1].lastAuthenticated;
      if time.Some? && (rest.None? || time.value > rest.value) then time else rest
  }

  /** The later of two optional times; a missing one never wins. */
  function Later(a: Option<int>, b: Option<int>): (r: Option<int>)
    ensures r.None? <==> a.None? && b.None?
    ensures r.Some? ==> r == a || r == b
    ensures a.Some? ==> r.Some? && a.value <= r.value
    ensures b.Some? ==> r.Some? && b.value <= r.value
  {
    if b.Some? && (a.None? || b.value > a.value) then b else a
  }

  datatype UsageMetrics = UsageMetrics(
    daysSinceLastUse: int, usageCount90d: int, observationDays: int, sourcesAvailable: nat,
    lastUsedBy: Option<string>, usagePattern: UsagePattern, actionsUsed: seq<string>, actionsUnused: seq<string>,
    servicesAccessed: seq<string>, lastActivity: Option<int>)

  /** _build_usage_metrics, at day `today`. */
  function BuildUsageMetrics(lookbackDays: int, sourcesAvailable: nat, ct: CloudTrailData, aa: AccessAdvisorData,
                             today: int): (m: UsageMetrics)
    ensures m.lastActivity == Later(ct.lastEventTime, aa.lastAccessedTime)
    ensures m.lastActivity.Some? ==> m.daysSinceLastUse == today - m.lastActivity.value
    ensures m.lastActivity.None? ==> m.daysSinceLastUse == lookbackDays + 1
    ensures m.usageCount90d == ct.eventCount && m.observationDays == lookbackDays
    ensures m.sourcesAvailable == sourcesAvailable
    ensures m.usagePattern == ClassifyUsagePattern(ct.eventCount, m.daysSinceLastUse, lookbackDays)
    ensures m.lastUsedBy.Some? <==> ct.uniquePrincipals != []
    ensures m.lastUsedBy.Some? ==> m.lastUsedBy.value in ct.uniquePrincipals
    ensures m.actionsUsed == ct.uniqueActions && m.actionsUnused == [] && m.servicesAccessed == aa.servicesAccessed
  {
    var last := Later(ct.lastEventTime, aa.lastAccessedTime);
    var days := if last.Some? then today - last.value else lookbackDays + 1;
    UsageMetrics(days, ct.eventCount, lookbackDays, sourcesAvailable,
                 if ct.uniquePrincipals != [] then Some(ct.uniquePrincipals[0]) else None,
                 ClassifyUsagePattern(ct.eventCount, days, lookbackDays),
                 ct.uniqueActions, [], aa.servicesAccessed, last)
  }

  /** With no timestamp from either source the role counts as never used in the window. */
  lemma NoTimestampMeansNone(lookbackDays: int, sourcesAvailable: nat, ct: CloudTrailData, aa: AccessAdvisorData,
                             today: int)
    requires ct.lastEventTime.None? && aa.lastAccessedTime.None?
    ensures BuildUsageMetrics(lookbackDays, sourcesAvailable, ct, aa, today).daysSinceLastUse == lookbackDays + 1
    ensures BuildUsageMetrics(lookbackDays, sourcesAvailable, ct, aa, today).usagePattern == PatternNone
  {
  }

  /** _get_default_usage_metrics. */
  const DefaultUsageMetrics := UsageMetrics(0, 100, 0, 0, None, PatternMedium, [], [], [], None)

  lemma DefaultsAreConservative()
    ensures DefaultUsageMetrics.usagePattern == PatternMedium && DefaultUsageMetrics.usageCount90d == 100
    ensures DefaultUsageMetrics.daysSinceLastUse == 0 && DefaultUsageMetrics.observationDays == 0
    ensures DefaultUsageMetrics.sourcesAvailable == 0
    // the default pattern is the one its own count and recency get
    ensures ClassifyUsagePattern(DefaultUsageMetrics.usageCount90d, DefaultUsageMetrics.daysSinceLastUse,
                                 DefaultUsageMetrics.observationDays) == DefaultUsageMetrics.usagePattern
  {
  }

  /** The collector; its count of sources that answered is never reset. */
  /** What _get_cloudtrail_events returns for the two query results. */
  function CloudTrailSummary(byUsername: Result<seq<Event>>, byRoleArn: Result<seq<Event>>): CloudTrailData
  {
    if byUsername.Err? then FailedCloudTrail
    else
      var unique := UniqueEvents(byUsername.value + (if byRoleArn.Ok? then byRoleArn.value else []));
      CloudTrailData(|unique|, LatestTime(unique), FirstSeen(Names(unique)), FirstSeen(Principals(unique)), true)
  }

  /** What _get_access_advisor_data returns for the job's report. */
  function AccessAdvisorSummary(report: Result<seq<ServiceAccess>>): AccessAdvisorData
  {
    if report.Err? then FailedAccessAdvisor
    else AccessAdvisorData(AccessedNames(report.value), NotAccessedNames(report.value),
                           LatestAccess(report.value), |report.value|, true)
  }

  /** The number of sources that answered. */
  function Answered(byUsername: Result<seq<Event>>, report: Result<seq<ServiceAccess>>): nat
  {
    (if byUsername.Ok? then 1 else 0) + (if report.Ok? then 1 else 0)
  }

  class CloudTrailUsageCollector {
    const lookbackDays: int
    var sourcesAvailable: nat

    constructor(lookbackDays: int)
      ensures this.lookbackDays == lookbackDays && sourcesAvailable == 0
    {
      this.lookbackDays := lookbackDays;
      sourcesAvailable := 0;
    }

    /** The loop of _get_cloudtrail_events over the deduplicated events. */
    static method SummarizeEvents(events: seq<Event>) returns (actions: seq<string>, principals: seq<string>,
                                                               lastEventTime: Option<int>)
      ensures actions == FirstSeen(Names(events))
      ensures principals == FirstSeen(Principals(events))
      ensures lastEventTime == LatestTime(events)
    {
      actions := [];
      principals := [];
      lastEventTime := None;
      var i := 0;
      while i < |events|
        invariant 0 <= i <= |events|
        invariant actions == FirstSeen(Names(events[..i]))
        invariant principals == FirstSeen(Principals(events[..i]))
        invariant lastEventTime == LatestTime(events[..i])
      {
        var e := events[i];
        SummaryStep(events, i);
        if EventName(e) !in actions {
          actions := actions + [EventName(e)];
        }
        if PrincipalOf(e).Some? && PrincipalOf(e).value !in principals {
          principals := principals + [PrincipalOf(e).value];
        }
        if e.eventTime.Some? && (lastEventTime.None? || e.eventTime.value > lastEventTime.value) {
          lastEventTime := e.eventTime;
        }
        i := i + 1;
      }
      assert events[..i] == events;
    }

    /** How the three summaries of a prefix grow by one event. */
    static lemma SummaryStep(events: seq<Event>, i: nat)
      requires i < |events|
      ensures var e := events[i];
        FirstSeen(Names(events[..i + 1])) ==
          (if EventName(e) in FirstSeen(Names(events[..i])) then FirstSeen(Names(events[..i]))
           else FirstSeen(Names(events[..i])) + [EventName(e)])
      ensures var e := events[i];
        FirstSeen(Principals(events[..i + 1])) ==
          (if PrincipalOf(e).None? || PrincipalOf(e).value in FirstSeen(Principals(events[..i]))
           then FirstSeen(Principals(events[..i]))
           else FirstSeen(Principals(events[..i])) + [PrincipalOf(e).value])
      ensures var e := events[i];
        LatestTime(events[..i + 1]) ==
          (if e.eventTime.Some? && (LatestTime(events[..i]).None? || e.eventTime.value > LatestTime(events[..i]).value)
           then e.eventTime else LatestTime(events[..i]))
    {
      var e := events[i];
      assert events[..i + 1][..i] == events[..i];
      assert Names(events[..i + 1]) == Names(events[..i]) + [EventName(e)];
      FirstSeenSnoc(Names(events[..i]), EventName(e));
      if PrincipalOf(e).Some? {
        FirstSeenSnoc(Principals(events[..i]), PrincipalOf(e).value);
      } else {
        assert Principals(events[..i + 1]) == Principals(events[..i]);
      }
    }

    /**
     * _get_cloudtrail_events: `byUsername` is the query by user name, whose
     * failure fails the whole source; `byRoleArn` is the query by role ARN,
     * whose failure is only logged.
     */
    method GetCloudTrailEvents(byUsername: Result<seq<Event>>, byRoleArn: Result<seq<Event>>)
      returns (data: CloudTrailData)
      modifies this
      ensures data == CloudTrailSummary(byUsername, byRoleArn)
      ensures byUsername.Err? ==> data == FailedCloudTrail && sourcesAvailable == old(sourcesAvailable)
      ensures byUsername.Ok? ==> sourcesAvailable == old(sourcesAvailable) + 1 && data.available
      ensures byUsername.Ok? ==>
        var all := byUsername.value + (if byRoleArn.Ok? then byRoleArn.value else []);
        var unique := UniqueEvents(all);
        data == CloudTrailData(|unique|, LatestTime(unique), FirstSeen(Names(unique)), FirstSeen(Principals(unique)), true)
    {
      if byUsername.Err? {
        return FailedCloudTrail;
      }
      var all := byUsername.value + (if byRoleArn.Ok? then byRoleArn.value else []);
      var unique := UniqueEvents(all);
      var actions, principals, last := SummarizeEvents(unique);
      sourcesAvailable := sourcesAvailable + 1;
      data := CloudTrailData(|unique|, last, actions, principals, true);
    }

    /** The loop of _get_access_advisor_data over the service entries. */
    static method SummarizeServices(services: seq<ServiceAccess>) returns (data: AccessAdvisorData)
      ensures data == AccessAdvisorData(AccessedNames(services), NotAccessedNames(services), LatestAccess(services),
                                        |services|, true)
    {
      var accessed: seq<string> := [];
      var notAccessed: seq<string> := [];
      var last: Option<int> := None;
      var i := 0;
      while i < |services|
        invariant 0 <= i <= |services|
        invariant accessed == AccessedNames(services[..i]) && notAccessed == NotAccessedNames(services[..i])
        invariant last == LatestAccess(services[..i])
      {
        var s := services[i];
        assert services[..i + 1][..i] == services[..i];
        if s.lastAuthenticated.Some? {
          accessed := accessed + [ServiceName(s)];
          if last.None? || s.lastAuthenticated.value > last.value {
            last := s.lastAuthenticated;
          }
        } else {
          notAccessed := notAccessed + [ServiceName(s)];
        }
        i := i + 1;
      }
      assert services[..i] == services;
      ServicesPartitioned(services);
      data := AccessAdvisorData(accessed, notAccessed, last, |accessed| + |notAccessed|, true);
    }

    /** _get_access_advisor_data: the completed job's service list, or the error of a failed job or query. */
    method GetAccessAdvisorData(report: Result<seq<ServiceAccess>>) returns (data: AccessAdvisorData)
      modifies this
      ensures data == AccessAdvisorSummary(report)
      ensures report.Err? ==> data == FailedAccessAdvisor && sourcesAvailable == old(sourcesAvailable)
      ensures report.Ok? ==> sourcesAvailable == old(sourcesAvailable) + 1
      ensures report.Ok? ==> data == AccessAdvisorData(AccessedNames(report.value), NotAccessedNames(report.value),
                                                       LatestAccess(report.value), |report.value|, true)
    {
      if report.Err? {
        return FailedAccessAdvisor;
      }
      data := SummarizeServices(report.value);
      sourcesAvailable := sourcesAvailable + 1;
    }

    /** get_usage_metrics: one CloudTrail and one Access Advisor query, merged. */
    method GetUsageMetrics(byUsername: Result<seq<Event>>, byRoleArn: Result<seq<Event>>,
                           report: Result<seq<ServiceAccess>>, today: int) returns (m: UsageMetrics)
      modifies this
      ensures sourcesAvailable == old(sourcesAvailable) + Answered(byUsername, report)
      ensures m == BuildUsageMetrics(lookbackDays, sourcesAvailable, CloudTrailSummary(byUsername, byRoleArn),
                                     AccessAdvisorSummary(report), today)
      ensures m.sourcesAvailable == sourcesAvailable
      ensures byUsername.Err? ==> m.usageCount90d == 0 && m.actionsUsed == [] && m.lastUsedBy.None?
      ensures byUsername.Err? && report.Err? ==> m.daysSinceLastUse == lookbackDays + 1 && m.usagePattern == PatternNone
      ensures m.observationDays == lookbackDays
    {
      var ct := GetCloudTrailEvents(byUsername, byRoleArn);
      var aa := GetAccessAdvisorData(report);
      m := BuildUsageMetrics(lookbackDays, sourcesAvailable, ct, aa, today);
    }
  }

  /**
   * get_usage_data_for_finding: the role name is `role_name` when non-empty,
   * else the last '/' segment of `resource_id` (default ""); without one, or
   * when creating the collector raised (`collectorFailure`), the defaults.
   * Each call uses a fresh collector.
   */
  method UsageDataForFinding(roleName: Option<string>, resourceId: Option<string>, collectorFailure: bool,
                             byUsername: Result<seq<Event>>, byRoleArn: Result<seq<Event>>,
                             report: Result<seq<ServiceAccess>>, today: int) returns (m: UsageMetrics)
    ensures RoleNameOf(roleName, resourceId) == "" || collectorFailure ==> m == DefaultUsageMetrics
    ensures RoleNameOf(roleName, resourceId) != "" && !collectorFailure ==>
      m == BuildUsageMetrics(90, Answered(byUsername, report), CloudTrailSummary(byUsername, byRoleArn),
                             AccessAdvisorSummary(report), today)
    ensures RoleNameOf(roleName, resourceId) != "" && !collectorFailure ==>
      m.sourcesAvailable == Answered(byUsername, report) && m.observationDays == 90
  {
    var name := RoleNameOf(roleName, resourceId);
    if name == "" || collectorFailure {
      return DefaultUsageMetrics;
    }
    var collector := new CloudTrailUsageCollector(90);
    m := collector.GetUsageMetrics(byUsername, byRoleArn, report, today);
  }

  /** `finding.get("role_name") or finding.get("resource_id", "").split("/")[-1]`. */
  function RoleNameOf(roleName: Option<string>, resourceId: Option<string>): (r: string)
    ensures roleName.Some? && roleName.value != "" ==> r == roleName.value
    ensures (roleName.None? || roleName.value == "") ==> r == SplitLast(GetOr(resourceId, ""), "/")
    ensures (roleName.None? || roleName.value == "") ==> !Contains(r, "/")
  {
    if roleName.Some? && roleName.value != "" then roleName.value else SplitLast(GetOr(resourceId, ""), "/")
  }
}
