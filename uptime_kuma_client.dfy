/** The monitoring-service client: it turns the service's raw monitor and
    incident records into canonical ones, searches the monitor list, falls back
    to incidents derived from the monitors when the incident feed fails, and
    summarises the monitor list into up/down/maintenance counts and an uptime
    ratio.

    Every call to the remote service is a parameter of type `Result<...>`: the
    list it returned, or the text of the exception it raised. */
module UptimeKumaClient {
  import opened Wrappers

  // ---------------------------------------------------------------------------
  // Monitors
  // ---------------------------------------------------------------------------

  /** One monitor record as the service sends it; any field may be absent.
      `id` is the text `str()` gives for the record's id. */
  datatype RawMonitor = RawMonitor(
    id: Option<string>,
    name: Option<string>,
    status: Option<int>,
    active: Option<bool>,
    url: Option<string>,
    kind: Option<string>,
    maintenance: Option<bool>)

  /** A canonical monitor: every field present, `status` 1 (up) or 0 (down). */
  datatype Monitor = Monitor(
    id: string,
    name: string,
    status: int,
    active: bool,
    url: string,
    kind: string,
    maintenance: bool)

  /** The text `str(None)` gives, used for a record without an id. */
  const NoneText: string := "None"
  const MonitorsErrorPrefix: string := "Ошибка при получении списка мониторов: "

  /** The canonical status of a raw record: the record is first taken as down
      when it is inactive or its raw status is 0, and then maintenance forces it
      down whatever the other fields say. */
  function CanonicalStatus(raw: RawMonitor): (s: int)
    ensures s == 0 || s == 1
    ensures raw.maintenance.GetOr(false) ==> s == 0
    ensures s == 1 <==> raw.active.GetOr(true) && raw.status != Some(0) && !raw.maintenance.GetOr(false)
  {
    var s := if !raw.active.GetOr(true) || raw.status == Some(0) then 0 else 1;
    if raw.maintenance.GetOr(false) then 0 else s
  }

  /** What every canonical monitor satisfies: a binary status, never up while
      in maintenance or inactive. */
  predicate WellFormed(m: Monitor) {
    (m.status == 0 || m.status == 1) && (m.status == 1 ==> m.active && !m.maintenance)
  }

  /** The canonical form of one raw record (the body of the `get_monitors` loop). */
  function NormalizeMonitor(raw: RawMonitor): (m: Monitor)
    ensures WellFormed(m)
    ensures m.status == CanonicalStatus(raw)
    ensures m.id == (if raw.id.Some? then raw.id.value else NoneText)
    ensures m.name == (if raw.name.Some? then raw.name.value else "Unknown")
    ensures m.url == (if raw.url.Some? then raw.url.value else "")
    ensures m.kind == (if raw.kind.Some? then raw.kind.value else "unknown")
    ensures m.active == (if raw.active.Some? then raw.active.value else true)
    ensures m.maintenance == (if raw.maintenance.Some? then raw.maintenance.value else false)
  {
    Monitor(
      id := raw.id.GetOr(NoneText),
      name := raw.name.GetOr("Unknown"),
      status := CanonicalStatus(raw),
      active := raw.active.GetOr(true),
      url := raw.url.GetOr(""),
      kind := raw.kind.GetOr("unknown"),
      maintenance := raw.maintenance.GetOr(false))
  }

  /** The canonical list for a raw list, element by element. */
  function NormalizeAll(raws: seq<RawMonitor>): seq<Monitor> {
    seq(|raws|, i requires 0 <= i < |raws| => NormalizeMonitor(raws[i]))
  }

  /** `get_monitors`: the service's list, normalized in order, or the service's
      failure wrapped in a connection error. */
  method GetMonitors(api: Result<seq<RawMonitor>>) returns (r: Result<seq<Monitor>>)
    ensures api.Failure? ==> r == Failure(MonitorsErrorPrefix + api.error)
    ensures api.Success? ==> r.Success? && |r.value| == |api.value|
    ensures api.Success? ==> forall i :: 0 <= i < |api.value| ==> r.value[i] == NormalizeMonitor(api.value[i])
    ensures api.Success? ==> r.value == NormalizeAll(api.value)
  {
    if api.Failure? {
      return Failure(MonitorsErrorPrefix + api.error);
    }
    var raws := api.value;
    var result: seq<Monitor> := [];
    var i := 0;
    while i < |raws|
      invariant 0 <= i <= |raws|
      invariant |result| == i
      invariant forall k :: 0 <= k < i ==> result[k] == NormalizeMonitor(raws[k])
    {
      result := result + [NormalizeMonitor(raws[i])];
      i := i + 1;
    }
    return Success(result);
  }

  /** `r` is the first element of `ms` that `matches`, or `None` when none does. */
  ghost predicate IsFirstMatch(ms: seq<Monitor>, matches: Monitor -> bool, r: Option<Monitor>) {
    (r.None? <==> forall i :: 0 <= i < |ms| ==> !matches(ms[i])) &&
    (r.Some? ==> exists i :: 0 <= i < |ms| && ms[i] == r.value && matches(ms[i]) &&
                             forall j :: 0 <= j < i ==> !matches(ms[j]))
  }

  /** `get_monitor_by_id`: the first canonical monitor whose id is `monitorId`. */
  method GetMonitorById(api: Result<seq<RawMonitor>>, monitorId: string) returns (r: Result<Option<Monitor>>)
    ensures api.Failure? ==> r == Failure(MonitorsErrorPrefix + api.error)
    ensures api.Success? ==> r.Success? && IsFirstMatch(NormalizeAll(api.value), (m: Monitor) => m.id == monitorId, r.value)
  {
    var fetched := GetMonitors(api);
    if fetched.Failure? {
      return Failure(fetched.error);
    }
    var monitors := fetched.value;
    var i := 0;
    while i < |monitors|
      invariant 0 <= i <= |monitors|
      invariant forall j :: 0 <= j < i ==> monitors[j].id != monitorId
    {
      if monitors[i].id == monitorId {
        return Success(Some(monitors[i]));
      }
      i := i + 1;
    }
    return Success(None);
  }

  /** `get_monitor_by_name`: the first canonical monitor whose name is `name`. */
  method GetMonitorByName(api: Result<seq<RawMonitor>>, name: string) returns (r: Result<Option<Monitor>>)
    ensures api.Failure? ==> r == Failure(MonitorsErrorPrefix + api.error)
    ensures api.Success? ==> r.Success? && IsFirstMatch(NormalizeAll(api.value), (m: Monitor) => m.name == name, r.value)
  {
    var fetched := GetMonitors(api);
    if fetched.Failure? {
      return Failure(fetched.error);
    }
    var monitors := fetched.value;
    var i := 0;
    while i < |monitors|
      invariant 0 <= i <= |monitors|
      invariant forall j :: 0 <= j < i ==> monitors[j].name != name
    {
      if monitors[i].name == name {
        return Success(Some(monitors[i]));
      }
      i := i + 1;
    }
    return Success(None);
  }

  // ---------------------------------------------------------------------------
  // Counting and filtering monitor lists
  // ---------------------------------------------------------------------------

  /** How many monitors of `ms` satisfy `p` (a generator `sum(1 for m in ms if p(m))`). */
  function Count(p: Monitor -> bool, ms: seq<Monitor>): nat
    decreases |ms|
  {
    if ms == [] then 0 else Count(p, ms[..|ms| - 1]) + (if p(ms[|ms| - 1]) then 1 else 0)
  }

  /** The monitors of `ms` that satisfy `p`, in list order. */
  function Filter(p: Monitor -> bool, ms: seq<Monitor>): seq<Monitor>
    decreases |ms|
  {
    if ms == [] then [] else Filter(p, ms[..|ms| - 1]) + (if p(ms[|ms| - 1]) then [ms[|ms| - 1]] else [])
  }

  lemma {:induction false} FilterCount(p: Monitor -> bool, ms: seq<Monitor>)
    ensures |Filter(p, ms)| == Count(p, ms)
    ensures forall k :: 0 <= k < |Filter(p, ms)| ==> p(Filter(p, ms)[k]) && Filter(p, ms)[k] in ms
    decreases |ms|
  {
    if ms != [] {
      FilterCount(p, ms[..|ms| - 1]);
      forall m | m in ms[..|ms| - 1] ensures m in ms { }
    }
  }

  predicate IsActive(m: Monitor) { m.active }
  predicate IsUp(m: Monitor) { m.status == 1 && m.active }
  predicate IsDown(m: Monitor) { m.status == 0 && m.active && !m.maintenance }
  predicate InMaintenance(m: Monitor) { m.maintenance && m.active }

  // ---------------------------------------------------------------------------
  // Status summary
  // ---------------------------------------------------------------------------

  /** `uptime` is the exact `up / active * 100`, before the source rounds it. */
  datatype Summary = Summary(total: nat, up: nat, down: nat, maintenance: nat, uptime: real)

  /** The summary of a canonical monitor list (the body of `get_status_summary`). */
  function Summarize(ms: seq<Monitor>): Summary {
    var up := Count(IsUp, ms);
    var active := Count(IsActive, ms);
    Summary(
      total := |ms|,
      up := up,
      down := Count(IsDown, ms),
      maintenance := Count(InMaintenance, ms),
      uptime := if active > 0 then up as real / active as real * 100.0 else 100.0)
  }

  /** `get_status_summary`: the summary of the freshly fetched monitor list. */
  method GetStatusSummary(api: Result<seq<RawMonitor>>) returns (r: Result<Summary>)
    ensures api.Failure? ==> r == Failure(MonitorsErrorPrefix + api.error)
    ensures api.Success? ==> r == Success(Summarize(NormalizeAll(api.value)))
  {
    var fetched := GetMonitors(api);
    if fetched.Failure? {
      return Failure(fetched.error);
    }
    return Success(Summarize(fetched.value));
  }

  /** Up, down and maintenance split the active monitors of a canonical list:
      every active monitor is in exactly one bucket, and no inactive one is. */
  lemma {:induction false} BucketsPartitionActive(ms: seq<Monitor>)
    requires forall k :: 0 <= k < |ms| ==> WellFormed(ms[k])
    ensures Summarize(ms).up + Summarize(ms).down + Summarize(ms).maintenance == Count(IsActive, ms)
    ensures forall k :: 0 <= k < |ms| && ms[k].active ==>
      (IsUp(ms[k]) || IsDown(ms[k]) || InMaintenance(ms[k])) &&
      !(IsUp(ms[k]) && IsDown(ms[k])) && !(IsUp(ms[k]) && InMaintenance(ms[k])) && !(IsDown(ms[k]) && InMaintenance(ms[k]))
    ensures forall k :: 0 <= k < |ms| && !ms[k].active ==> !IsUp(ms[k]) && !IsDown(ms[k]) && !InMaintenance(ms[k])
    decreases |ms|
  {
    if ms != [] {
      BucketsPartitionActive(ms[..|ms| - 1]);
    }
  }

  /** Every monitor counted as up is active. */
  lemma {:induction false} UpAtMostActive(ms: seq<Monitor>)
    ensures Count(IsUp, ms) <= Count(IsActive, ms)
    decreases |ms|
  {
    if ms != [] {
      UpAtMostActive(ms[..|ms| - 1]);
    }
  }

  /** The total is the list length; it equals the three buckets together
      exactly when no monitor is inactive. */
  lemma {:induction false} TotalWhenAllActive(ms: seq<Monitor>)
    requires forall k :: 0 <= k < |ms| ==> WellFormed(ms[k])
    ensures Summarize(ms).total == |ms|
    ensures (forall k :: 0 <= k < |ms| ==> ms[k].active) <==>
            Summarize(ms).total == Summarize(ms).up + Summarize(ms).down + Summarize(ms).maintenance
  {
    BucketsPartitionActive(ms);
    AllActiveIff(ms);
  }

  lemma {:induction false} AllActiveIff(ms: seq<Monitor>)
    ensures Count(IsActive, ms) <= |ms|
    ensures (forall k :: 0 <= k < |ms| ==> ms[k].active) <==> Count(IsActive, ms) == |ms|
    decreases |ms|
  {
    if ms != [] {
      var init := ms[..|ms| - 1];
      AllActiveIff(init);
      if forall k :: 0 <= k < |ms| ==> ms[k].active {
        assert forall k :: 0 <= k < |init| ==> init[k].active by {
          forall k | 0 <= k < |init| ensures init[k].active { assert init[k] == ms[k]; }
        }
      } else if ms[|ms| - 1].active {
        assert !(forall k :: 0 <= k < |init| ==> init[k].active) by {
          var k :| 0 <= k < |ms| && !ms[k].active;
          assert k < |init| && init[k] == ms[k];
        }
      }
    }
  }

  /** The exact uptime lies in [0, 100], and is 100 when no monitor is active. */
  lemma UptimeInRange(ms: seq<Monitor>)
    ensures 0.0 <= Summarize(ms).uptime <= 100.0
    ensures Count(IsActive, ms) == 0 ==> Summarize(ms).uptime == 100.0
  {
    var up, active := Count(IsUp, ms), Count(IsActive, ms);
    if active > 0 {
      UpAtMostActive(ms);
      var ratio := up as real / active as real;
      assert ratio * active as real == up as real;
      assert ratio <= 1.0;
    }
  }

  // ---------------------------------------------------------------------------
  // Incidents
  // ---------------------------------------------------------------------------

  /** One incident record as the service sends it; any field may be absent. */
  datatype RawIncident = RawIncident(
    id: Option<string>,
    title: Option<string>,
    monitorName: Option<string>,
    status: Option<string>,
    startedAt: Option<string>,
    resolvedAt: Option<string>)

  datatype Incident = Incident(
    id: string,
    title: string,
    monitorName: string,
    status: string,
    startedAt: string,
    resolvedAt: string)

  const UnknownIncidentTitle: string := "Неизвестный инцидент"
  const ProblemTitlePrefix: string := "Проблема с "
  const RecentlyText: string := "Недавно"

  /** The canonical form of one incident record from the direct feed. */
  function NormalizeIncident(raw: RawIncident): (inc: Incident)
    ensures inc.id == (if raw.id.Some? then raw.id.value else "")
    ensures inc.title == (if raw.title.Some? then raw.title.value else UnknownIncidentTitle)
    ensures inc.monitorName == (if raw.monitorName.Some? then raw.monitorName.value else "")
    ensures inc.status == (if raw.status.Some? then raw.status.value else "unknown")
    ensures inc.startedAt == (if raw.startedAt.Some? then raw.startedAt.value else "")
    ensures inc.resolvedAt == (if raw.resolvedAt.Some? then raw.resolvedAt.value else "")
  {
    Incident(
      id := raw.id.GetOr(""),
      title := raw.title.GetOr(UnknownIncidentTitle),
      monitorName := raw.monitorName.GetOr(""),
      status := raw.status.GetOr("unknown"),
      startedAt := raw.startedAt.GetOr(""),
      resolvedAt := raw.resolvedAt.GetOr(""))
  }

  /** The canonical list for a direct incident feed, element by element. */
  function NormalizeIncidents(raws: seq<RawIncident>): seq<Incident> {
    seq(|raws|, i requires 0 <= i < |raws| => NormalizeIncident(raws[i]))
  }

  /** The monitors the fallback reports: down and active. Maintenance is not
      excluded, so an active monitor in maintenance is reported too. */
  predicate IsOutage(m: Monitor) { m.status == 0 && m.active }

  /** The incident synthesized for one monitor. */
  function IncidentFor(m: Monitor): Incident {
    Incident(
      id := m.id,
      title := ProblemTitlePrefix + m.name,
      monitorName := m.name,
      status := "down",
      startedAt := RecentlyText,
      resolvedAt := "")
  }

  /** The incident list the fallback builds from a canonical monitor list. */
  function Synthesized(ms: seq<Monitor>): seq<Incident>
    decreases |ms|
  {
    if ms == [] then []
    else Synthesized(ms[..|ms| - 1]) + (if IsOutage(ms[|ms| - 1]) then [IncidentFor(ms[|ms| - 1])] else [])
  }

  /** One synthesized incident per outage monitor. */
  lemma {:induction false} SynthesizedLength(ms: seq<Monitor>)
    ensures |Synthesized(ms)| == Count(IsOutage, ms)
    decreases |ms|
  {
    if ms != [] {
      SynthesizedLength(ms[..|ms| - 1]);
    }
  }

  /** The outage monitor at index `i` is reported at the position given by the
      number of outage monitors before it: the fallback keeps list order. */
  lemma {:induction false} SynthesizedAt(ms: seq<Monitor>, i: nat)
    requires i < |ms| && IsOutage(ms[i])
    ensures Count(IsOutage, ms[..i]) < |Synthesized(ms)|
    ensures Synthesized(ms)[Count(IsOutage, ms[..i])] == IncidentFor(ms[i])
    decreases |ms|
  {
    var init := ms[..|ms| - 1];
    SynthesizedLength(init);
    if i == |ms| - 1 {
      assert ms[..i] == init;
    } else {
      SynthesizedAt(init, i);
      assert init[..i] == ms[..i];
    }
  }

  /** Every synthesized incident comes from an outage monitor of the list. */
  lemma {:induction false} SynthesizedFrom(ms: seq<Monitor>, k: nat)
    requires k < |Synthesized(ms)|
    ensures exists i :: 0 <= i < |ms| && IsOutage(ms[i]) && Synthesized(ms)[k] == IncidentFor(ms[i])
    decreases |ms|
  {
    var init := ms[..|ms| - 1];
    if k < |Synthesized(init)| {
      SynthesizedFrom(init, k);
      var i :| 0 <= i < |init| && IsOutage(init[i]) && Synthesized(init)[k] == IncidentFor(init[i]);
      assert ms[i] == init[i];
    } else {
      assert Synthesized(ms)[k] == IncidentFor(ms[|ms| - 1]);
    }
  }

  /** On a canonical list the fallback reports the down monitors and the active
      monitors in maintenance: as many incidents as those two buckets together. */
  lemma {:induction false} OutagesAreDownPlusMaintenance(ms: seq<Monitor>)
    requires forall k :: 0 <= k < |ms| ==> WellFormed(ms[k])
    ensures |Synthesized(ms)| == Summarize(ms).down + Summarize(ms).maintenance
    decreases |ms|
  {
    SynthesizedLength(ms);
    if ms != [] {
      OutagesAreDownPlusMaintenance(ms[..|ms| - 1]);
      SynthesizedLength(ms[..|ms| - 1]);
    }
  }

  /** `_create_incidents_from_monitors`: fetch the monitors again and report
      each outage monitor, in order. */
  method CreateIncidentsFromMonitors(api: Result<seq<RawMonitor>>) returns (r: Result<seq<Incident>>)
    ensures api.Failure? ==> r == Failure(MonitorsErrorPrefix + api.error)
    ensures api.Success? ==> r == Success(Synthesized(NormalizeAll(api.value)))
  {
    var fetched := GetMonitors(api);
    if fetched.Failure? {
      return Failure(fetched.error);
    }
    var monitors := fetched.value;
    var incidents: seq<Incident> := [];
    var i := 0;
    while i < |monitors|
      invariant 0 <= i <= |monitors|
      invariant incidents == Synthesized(monitors[..i])
    {
      assert monitors[..i + 1][..i] == monitors[..i];
      if monitors[i].status == 0 && monitors[i].active {
        incidents := incidents + [IncidentFor(monitors[i])];
      }
      i := i + 1;
    }
    assert monitors[..i] == monitors;
    return Success(incidents);
  }

  /** `get_incidents`: the direct feed, normalized in order (an empty feed
      included), when it answers; the fallback only when it raises. */
  method GetIncidents(incidentApi: Result<seq<RawIncident>>, monitorApi: Result<seq<RawMonitor>>)
    returns (r: Result<seq<Incident>>)
    ensures incidentApi.Success? ==> r.Success? && |r.value| == |incidentApi.value|
    ensures incidentApi.Success? ==>
      forall i :: 0 <= i < |incidentApi.value| ==> r.value[i] == NormalizeIncident(incidentApi.value[i])
    ensures incidentApi.Success? ==> r.value == NormalizeIncidents(incidentApi.value)
    ensures incidentApi.Failure? && monitorApi.Failure? ==> r == Failure(MonitorsErrorPrefix + monitorApi.error)
    ensures incidentApi.Failure? && monitorApi.Success? ==> r == Success(Synthesized(NormalizeAll(monitorApi.value)))
  {
    if incidentApi.Failure? {
      r := CreateIncidentsFromMonitors(monitorApi);
      return;
    }
    var raws := incidentApi.value;
    var result: seq<Incident> := [];
    var i := 0;
    while i < |raws|
      invariant 0 <= i <= |raws|
      invariant |result| == i
      invariant forall k :: 0 <= k < i ==> result[k] == NormalizeIncident(raws[k])
    {
      result := result + [NormalizeIncident(raws[i])];
      i := i + 1;
    }
    return Success(result);
  }
}
