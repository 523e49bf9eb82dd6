/** The chat bot: the allow-list of chat ids, the authorization check, and the
    four command handlers that answer with text built from the monitoring
    service's data.

    Each handler is a method from its inputs to the sequence of messages it
    sends, in order. The remote service appears as parameters: whether
    connecting failed (and the error text), and the result of each fetch the
    handler makes. */
module Bot {
  import opened Wrappers
  import opened Text
  import opened UptimeKumaClient

  const AccessDenied: string := "У вас нет доступа к этому боту."
  const Welcome: string :=
    "👋 Привет! Я бот для мониторинга Uptime Kuma.\n\n" +
    "Доступные команды:\n" +
    "/status - Получить общий статус всех сервисов\n" +
    "/monitors - Показать список всех мониторов\n" +
    "/incidents - Показать список инцидентов"
  const FetchingStatus: string := "🔍 Получаю статус сервисов..."
  const FetchingMonitors: string := "🔍 Получаю список мониторов..."
  const FetchingIncidents: string := "🔍 Получаю список инцидентов..."
  const ErrorPrefix: string := "❌ Произошла ошибка: "
  const ConnectErrorPrefix: string := "Ошибка подключения к Uptime Kuma: "
  const ProblemsHeader: string := "\n⚠️ Сервисы с проблемами:\n"
  const MonitorListHeader: string := "📋 Список мониторов:\n\n"
  const NoMonitors: string := "❗ Мониторы не найдены."
  const IncidentListHeader: string := "🚨 Список инцидентов:\n\n"
  const NoIncidents: string := "✅ Активных инцидентов нет."

  // ---------------------------------------------------------------------------
  // Authorization
  // ---------------------------------------------------------------------------

  /** `ALLOWED_CHAT_IDS`: the environment value (empty when unset) split on
      commas, nothing trimmed. */
  function AllowedChatIds(env: Option<string>): (ids: seq<string>)
    ensures |ids| >= 1
    ensures Join(ids, ',') == env.GetOr("")
    ensures forall k :: 0 <= k < |ids| ==> ',' !in ids[k]
    ensures env.GetOr("") == "" ==> ids == [""]
  {
    SplitJoin(env.GetOr(""), ',');
    Split(env.GetOr(""), ',')
  }

  /** A configured list of comma-free ids is read back exactly. */
  lemma ConfiguredIdsRoundTrip(ids: seq<string>)
    requires |ids| >= 1
    requires forall k :: 0 <= k < |ids| ==> ',' !in ids[k]
    ensures AllowedChatIds(Some(Join(ids, ','))) == ids
  {
    JoinSplit(ids, ',');
  }

  /** The sender's id as the transport gives it: a number or a text. */
  datatype UserId = NumericId(n: int) | TextId(s: string)

  /** `str(user_id)`. */
  function IdText(user: UserId): string {
    match user
    case NumericId(n) => IntToString(n)
    case TextId(s) => s
  }

  /** The verdict of `is_authorized` and the messages it sent. */
  datatype AuthOutcome = AuthOutcome(allowed: bool, sent: seq<string>)

  /** `is_authorized`: the sender passes exactly when the text of its id is one
      of the listed entries; a refusal sends one notice, a pass sends nothing. */
  function IsAuthorized(allowedIds: seq<string>, user: UserId): (r: AuthOutcome)
    ensures r.allowed <==> IdText(user) in allowedIds
    ensures r.allowed ==> r.sent == []
    ensures !r.allowed ==> r.sent == [AccessDenied]
  {
    if IdText(user) in allowedIds then AuthOutcome(true, []) else AuthOutcome(false, [AccessDenied])
  }

  /** A numeric id and its decimal text get the same verdict. */
  lemma NumericAndTextIdsAgree(allowedIds: seq<string>, n: int)
    ensures IsAuthorized(allowedIds, NumericId(n)) == IsAuthorized(allowedIds, TextId(IntToString(n)))
  {
  }

  /** An unset or empty variable yields the single entry "", so every sender
      with a non-empty id text, and in particular every numeric id, is refused. */
  lemma EmptyAllowListDenies(env: Option<string>, user: UserId)
    requires env.GetOr("") == ""
    requires IdText(user) != "" || user.NumericId?
    ensures !IsAuthorized(AllowedChatIds(env), user).allowed
    ensures IsAuthorized(AllowedChatIds(env), user).sent == [AccessDenied]
  {
    assert IdText(user) != "";
  }

  /** One allow-list entry admits at most one numeric id. */
  lemma EntryAdmitsOneNumericId(entry: string, a: int, b: int)
    requires IsAuthorized([entry], NumericId(a)).allowed
    requires IsAuthorized([entry], NumericId(b)).allowed
    ensures a == b
  {
    IntToStringInjective(a, b);
  }

  // ---------------------------------------------------------------------------
  // /start and /help
  // ---------------------------------------------------------------------------

  /** `send_welcome`. */
  method SendWelcome(allowedIds: seq<string>, user: UserId) returns (sent: seq<string>)
    ensures IdText(user) !in allowedIds ==> sent == [AccessDenied]
    ensures IdText(user) in allowedIds ==> sent == [Welcome]
  {
    var auth := IsAuthorized(allowedIds, user);
    sent := auth.sent;
    if !auth.allowed {
      return;
    }
    sent := sent + [Welcome];
  }

  // ---------------------------------------------------------------------------
  // /status
  // ---------------------------------------------------------------------------

  /** The counts part of the status reply; `uptimeText` is the printed form of
      the rounded uptime. */
  function StatusReport(s: Summary, uptimeText: string): string {
    var r := "📊 Статус сервисов:\n\n";
    var r := r + ("Всего: " + NatToString(s.total) + "\n");
    var r := r + ("✅ " + ("Работают: " + NatToString(s.up)) + "\n");
    var r := r + ("❌ " + ("Не работают: " + NatToString(s.down)) + "\n");
    var r := r + ("🔧 " + ("На обслуживании: " + NatToString(s.maintenance)) + "\n");
    r + ("📈 " + ("Uptime: " + uptimeText + "%") + "\n")
  }

  /** The line for one monitor in the problem section. */
  function ProblemLine(m: Monitor): string {
    "- " + m.name + "\n"
  }

  /** The loop of `get_status` over the second fetch: one line per monitor
      that is down, active and not in maintenance, in list order. */
  method BuildProblemList(monitors: seq<Monitor>) returns (lines: string)
    ensures lines == ConcatMap(ProblemLine, Filter(IsDown, monitors))
  {
    lines := "";
    var i := 0;
    while i < |monitors|
      invariant 0 <= i <= |monitors|
      invariant lines == ConcatMap(ProblemLine, Filter(IsDown, monitors[..i]))
    {
      var m := monitors[i];
      assert monitors[..i + 1] == monitors[..i] + [m];
      assert monitors[..i + 1][..i] == monitors[..i];
      if m.status == 0 && m.active && !m.maintenance {
        ConcatMapSnoc(ProblemLine, Filter(IsDown, monitors[..i]), m);
        lines := lines + ("- " + m.name + "\n");
      } else {
        assert Filter(IsDown, monitors[..i + 1]) == Filter(IsDown, monitors[..i]) + [];
        assert Filter(IsDown, monitors[..i]) + [] == Filter(IsDown, monitors[..i]);
      }
      i := i + 1;
    }
    assert monitors[..i] == monitors;
  }

  /** `get_status`. The summary and the problem list come from two separate
      fetches of the monitor list; the second happens only when `down > 0`. */
  method GetStatus(
    allowedIds: seq<string>, user: UserId, connectError: Option<string>,
    summaryApi: Result<seq<RawMonitor>>, uptimeText: string, monitorsApi: Result<seq<RawMonitor>>)
    returns (sent: seq<string>)
    ensures IdText(user) !in allowedIds ==> sent == [AccessDenied]
    ensures IdText(user) in allowedIds ==> |sent| == 2 && sent[0] == FetchingStatus
    ensures IdText(user) in allowedIds && connectError.Some? ==>
      sent[1] == ErrorPrefix + ConnectErrorPrefix + connectError.value
    ensures IdText(user) in allowedIds && connectError.None? && summaryApi.Failure? ==>
      sent[1] == ErrorPrefix + MonitorsErrorPrefix + summaryApi.error
    ensures IdText(user) in allowedIds && connectError.None? && summaryApi.Success? ==>
      var s := Summarize(NormalizeAll(summaryApi.value));
      (s.down == 0 ==> sent[1] == StatusReport(s, uptimeText)) &&
      (s.down > 0 && monitorsApi.Failure? ==> sent[1] == ErrorPrefix + MonitorsErrorPrefix + monitorsApi.error) &&
      (s.down > 0 && monitorsApi.Success? ==>
         sent[1] == StatusReport(s, uptimeText) + ProblemsHeader +
                    ConcatMap(ProblemLine, Filter(IsDown, NormalizeAll(monitorsApi.value))))
  {
    var auth := IsAuthorized(allowedIds, user);
    sent := auth.sent;
    if !auth.allowed {
      return;
    }
    sent := sent + [FetchingStatus];
    if connectError.Some? {
      sent := sent + [ErrorPrefix + ConnectErrorPrefix + connectError.value];
      return;
    }
    var fetched := GetStatusSummary(summaryApi);
    if fetched.Failure? {
      sent := sent + [ErrorPrefix + fetched.error];
      return;
    }
    var summary := fetched.value;
    var response := StatusReport(summary, uptimeText);
    if summary.down > 0 {
      response := response + ProblemsHeader;
      var listed := GetMonitors(monitorsApi);
      if listed.Failure? {
        sent := sent + [ErrorPrefix + listed.error];
        return;
      }
      var problems := BuildProblemList(listed.value);
      response := response + problems;
    }
    sent := sent + [response];
  }

  /** The status reply shows each count on its own labelled line. */
  lemma StatusReportShowsCounts(s: Summary, uptimeText: string)
    ensures Contains(StatusReport(s, uptimeText), "Всего: " + NatToString(s.total))
    ensures Contains(StatusReport(s, uptimeText), "Работают: " + NatToString(s.up))
    ensures Contains(StatusReport(s, uptimeText), "Не работают: " + NatToString(s.down))
    ensures Contains(StatusReport(s, uptimeText), "На обслуживании: " + NatToString(s.maintenance))
    ensures Contains(StatusReport(s, uptimeText), "Uptime: " + uptimeText + "%")
  {
    var total := "Всего: " + NatToString(s.total);
    var up := "Работают: " + NatToString(s.up);
    var down := "Не работают: " + NatToString(s.down);
    var maint := "На обслуживании: " + NatToString(s.maintenance);
    var uptime := "Uptime: " + uptimeText + "%";
    var r0 := "📊 Статус сервисов:\n\n";
    var r1 := r0 + (total + "\n");
    var r2 := r1 + ("✅ " + up + "\n");
    var r3 := r2 + ("❌ " + down + "\n");
    var r4 := r3 + ("🔧 " + maint + "\n");
    var r5 := r4 + ("📈 " + uptime + "\n");
    assert StatusReport(s, uptimeText) == r5;
    ContainsSelf(total);
    ContainsLeft(total, "\n", total);
    ContainsRight(r0, total + "\n", total);
    ContainsLeft(r1, "✅ " + up + "\n", total);
    ContainsLeft(r2, "❌ " + down + "\n", total);
    ContainsLeft(r3, "🔧 " + maint + "\n", total);
    ContainsLeft(r4, "📈 " + uptime + "\n", total);
    LabelledLine(r1, "✅ ", up);
    ContainsLeft(r2, "❌ " + down + "\n", up);
    ContainsLeft(r3, "🔧 " + maint + "\n", up);
    ContainsLeft(r4, "📈 " + uptime + "\n", up);
    LabelledLine(r2, "❌ ", down);
    ContainsLeft(r3, "🔧 " + maint + "\n", down);
    ContainsLeft(r4, "📈 " + uptime + "\n", down);
    LabelledLine(r3, "🔧 ", maint);
    ContainsLeft(r4, "📈 " + uptime + "\n", maint);
    LabelledLine(r4, "📈 ", uptime);
  }

  /** A line `icon + text + "\n"` appended to `before` shows `text`. */
  lemma LabelledLine(before: string, icon: string, text: string)
    ensures Contains(before + (icon + text + "\n"), text)
  {
    ContainsSelf(text);
    ContainsRight(icon, text, text);
    ContainsLeft(icon + text, "\n", text);
    ContainsRight(before, icon + text + "\n", text);
  }

  /** When both fetches see the same list, the problem section names exactly
      the monitors counted as down, in list order: as many lines as `down`,
      each for a down monitor of the list, every down monitor's line in it. */
  lemma {:induction false} ProblemSectionMatchesDown(ms: seq<Monitor>)
    ensures |Filter(IsDown, ms)| == Summarize(ms).down
    ensures forall k :: 0 <= k < |Filter(IsDown, ms)| ==> IsDown(Filter(IsDown, ms)[k]) && Filter(IsDown, ms)[k] in ms
    ensures forall i :: 0 <= i < |ms| && IsDown(ms[i]) ==> Contains(ConcatMap(ProblemLine, Filter(IsDown, ms)), ProblemLine(ms[i]))
  {
    FilterCount(IsDown, ms);
    forall i | 0 <= i < |ms| && IsDown(ms[i])
      ensures Contains(ConcatMap(ProblemLine, Filter(IsDown, ms)), ProblemLine(ms[i]))
    {
      var k := FilterIndexOf(IsDown, ms, i);
      ConcatMapContains(ProblemLine, Filter(IsDown, ms), k);
    }
  }

  /** A monitor of `ms` that satisfies `p` has a place in `Filter(p, ms)`. */
  lemma {:induction false} FilterIndexOf(p: Monitor -> bool, ms: seq<Monitor>, i: nat) returns (k: nat)
    requires i < |ms| && p(ms[i])
    ensures k < |Filter(p, ms)| && Filter(p, ms)[k] == ms[i]
    decreases |ms|
  {
    var init := ms[..|ms| - 1];
    if i == |ms| - 1 {
      k := |Filter(p, init)|;
    } else {
      k := FilterIndexOf(p, init, i);
    }
  }

  // ---------------------------------------------------------------------------
  // /monitors
  // ---------------------------------------------------------------------------

  /** Maintenance shows the wrench whatever the status; otherwise status 1
      shows a check mark and anything else a cross. */
  function StatusEmoji(m: Monitor): (e: string)
    ensures m.maintenance ==> e == "🔧"
    ensures !m.maintenance ==> (e == "✅" <==> m.status == 1) && (e == "❌" <==> m.status != 1)
  {
    var e := if m.status == 1 then "✅" else "❌";
    if m.maintenance then "🔧" else e
  }

  /** The line for one monitor; the url in parentheses only when non-empty. */
  function MonitorLine(m: Monitor): string {
    var line := StatusEmoji(m) + " " + m.name;
    var line := if m.url != "" then line + (" (" + m.url + ")") else line;
    line + "\n"
  }

  /** The loop of `list_monitors`: the header, then one line per monitor. */
  method BuildMonitorListing(monitors: seq<Monitor>) returns (response: string)
    ensures response == MonitorListHeader + ConcatMap(MonitorLine, monitors)
  {
    var body := "";
    var i := 0;
    while i < |monitors|
      invariant 0 <= i <= |monitors|
      invariant body == ConcatMap(MonitorLine, monitors[..i])
    {
      var m := monitors[i];
      assert monitors[..i + 1] == monitors[..i] + [m];
      ConcatMapSnoc(MonitorLine, monitors[..i], m);
      var statusEmoji := if m.status == 1 then "✅" else "❌";
      if m.maintenance {
        statusEmoji := "🔧";
      }
      var line := statusEmoji + " " + m.name;
      if m.url != "" {
        line := line + (" (" + m.url + ")");
      }
      line := line + "\n";
      assert line == MonitorLine(m);
      body := body + line;
      i := i + 1;
    }
    assert monitors[..i] == monitors;
    response := MonitorListHeader + body;
  }

  /** `list_monitors`. */
  method ListMonitors(allowedIds: seq<string>, user: UserId, connectError: Option<string>, api: Result<seq<RawMonitor>>)
    returns (sent: seq<string>)
    ensures IdText(user) !in allowedIds ==> sent == [AccessDenied]
    ensures IdText(user) in allowedIds ==> |sent| == 2 && sent[0] == FetchingMonitors
    ensures IdText(user) in allowedIds && connectError.Some? ==>
      sent[1] == ErrorPrefix + ConnectErrorPrefix + connectError.value
    ensures IdText(user) in allowedIds && connectError.None? && api.Failure? ==>
      sent[1] == ErrorPrefix + MonitorsErrorPrefix + api.error
    ensures IdText(user) in allowedIds && connectError.None? && api.Success? ==>
      sent[1] == if api.value == [] then NoMonitors
                 else MonitorListHeader + ConcatMap(MonitorLine, NormalizeAll(api.value))
  {
    var auth := IsAuthorized(allowedIds, user);
    sent := auth.sent;
    if !auth.allowed {
      return;
    }
    sent := sent + [FetchingMonitors];
    if connectError.Some? {
      sent := sent + [ErrorPrefix + ConnectErrorPrefix + connectError.value];
      return;
    }
    var fetched := GetMonitors(api);
    if fetched.Failure? {
      sent := sent + [ErrorPrefix + fetched.error];
      return;
    }
    var monitors := fetched.value;
    if monitors == [] {
      sent := sent + [NoMonitors];
      return;
    }
    var response := BuildMonitorListing(monitors);
    sent := sent + [response];
  }

  /** Every monitor's line appears in the listing, in list order, and shows the
      monitor's name and, when it has one, its url. */
  lemma MonitorListingShowsEachMonitor(ms: seq<Monitor>, i: nat)
    requires i < |ms|
    ensures ConcatMap(MonitorLine, ms) ==
            ConcatMap(MonitorLine, ms[..i]) + MonitorLine(ms[i]) + ConcatMap(MonitorLine, ms[i + 1..])
    ensures Contains(MonitorListHeader + ConcatMap(MonitorLine, ms), ms[i].name)
    ensures ms[i].url != "" ==> Contains(MonitorListHeader + ConcatMap(MonitorLine, ms), ms[i].url)
  {
    var m := ms[i];
    var listing := MonitorListHeader + ConcatMap(MonitorLine, ms);
    ConcatMapAt(MonitorLine, ms, i);
    ConcatMapContains(MonitorLine, ms, i);
    ContainsRight(MonitorListHeader, ConcatMap(MonitorLine, ms), MonitorLine(m));
    var line0 := StatusEmoji(m) + " " + m.name;
    var line1 := if m.url != "" then line0 + (" (" + m.url + ")") else line0;
    assert MonitorLine(m) == line1 + "\n";
    ContainsSelf(m.name);
    ContainsRight(StatusEmoji(m) + " ", m.name, m.name);
    if m.url != "" {
      ContainsLeft(line0, " (" + m.url + ")", m.name);
      ContainsSelf(m.url);
      ContainsRight(" (", m.url, m.url);
      ContainsLeft(" (" + m.url, ")", m.url);
      ContainsRight(line0, " (" + m.url + ")", m.url);
      ContainsLeft(line1, "\n", m.url);
      ContainsTrans(listing, MonitorLine(m), m.url);
    }
    ContainsLeft(line1, "\n", m.name);
    ContainsTrans(listing, MonitorLine(m), m.name);
  }

  // ---------------------------------------------------------------------------
  // /incidents
  // ---------------------------------------------------------------------------

  /** The block for one incident; the "resolved" line only when `resolvedAt`
      is non-empty. */
  function IncidentBlock(inc: Incident): string {
    var block := "⚠️ " + inc.title + "\n";
    var block := block + ("Монитор: " + inc.monitorName + "\n");
    var block := block + ("Статус: " + inc.status + "\n");
    var block := block + ("Начало: " + inc.startedAt + "\n");
    var block := if inc.resolvedAt != "" then block + ("Разрешено: " + inc.resolvedAt + "\n") else block;
    block + "\n"
  }

  /** The loop of `list_incidents`: the header, then one block per incident. */
  method BuildIncidentListing(incidents: seq<Incident>) returns (response: string)
    ensures response == IncidentListHeader + ConcatMap(IncidentBlock, incidents)
  {
    var body := "";
    var i := 0;
    while i < |incidents|
      invariant 0 <= i <= |incidents|
      invariant body == ConcatMap(IncidentBlock, incidents[..i])
    {
      var inc := incidents[i];
      assert incidents[..i + 1] == incidents[..i] + [inc];
      ConcatMapSnoc(IncidentBlock, incidents[..i], inc);
      var block := "⚠️ " + inc.title + "\n";
      block := block + ("Монитор: " + inc.monitorName + "\n");
      block := block + ("Статус: " + inc.status + "\n");
      block := block + ("Начало: " + inc.startedAt + "\n");
      if inc.resolvedAt != "" {
        block := block + ("Разрешено: " + inc.resolvedAt + "\n");
      }
      block := block + "\n";
      assert block == IncidentBlock(inc);
      body := body + block;
      i := i + 1;
    }
    assert incidents[..i] == incidents;
    response := IncidentListHeader + body;
  }

  /** `list_incidents`. The incident list is `get_incidents`'s: the direct feed
      when it answers, otherwise the list derived from a fresh monitor fetch. */
  method ListIncidents(
    allowedIds: seq<string>, user: UserId, connectError: Option<string>,
    incidentApi: Result<seq<RawIncident>>, monitorApi: Result<seq<RawMonitor>>)
    returns (sent: seq<string>)
    ensures IdText(user) !in allowedIds ==> sent == [AccessDenied]
    ensures IdText(user) in allowedIds ==> |sent| == 2 && sent[0] == FetchingIncidents
    ensures IdText(user) in allowedIds && connectError.Some? ==>
      sent[1] == ErrorPrefix + ConnectErrorPrefix + connectError.value
    ensures IdText(user) in allowedIds && connectError.None? && incidentApi.Failure? && monitorApi.Failure? ==>
      sent[1] == ErrorPrefix + MonitorsErrorPrefix + monitorApi.error
    ensures IdText(user) in allowedIds && connectError.None? && (incidentApi.Success? || monitorApi.Success?) ==>
      var incidents := if incidentApi.Success? then NormalizeIncidents(incidentApi.value)
                       else Synthesized(NormalizeAll(monitorApi.value));
      sent[1] == if incidents == [] then NoIncidents
                 else IncidentListHeader + ConcatMap(IncidentBlock, incidents)
  {
    var auth := IsAuthorized(allowedIds, user);
    sent := auth.sent;
    if !auth.allowed {
      return;
    }
    sent := sent + [FetchingIncidents];
    if connectError.Some? {
      sent := sent + [ErrorPrefix + ConnectErrorPrefix + connectError.value];
      return;
    }
    var fetched := GetIncidents(incidentApi, monitorApi);
    if fetched.Failure? {
      sent := sent + [ErrorPrefix + fetched.error];
      return;
    }
    var incidents := fetched.value;
    if incidents == [] {
      sent := sent + [NoIncidents];
      return;
    }
    var response := BuildIncidentListing(incidents);
    sent := sent + [response];
  }

  /** Every incident's block appears in the listing, in list order, and shows
      its title, monitor, status and start, and its resolution when it has one. */
  lemma IncidentListingShowsEachIncident(incs: seq<Incident>, i: nat)
    requires i < |incs|
    ensures ConcatMap(IncidentBlock, incs) ==
            ConcatMap(IncidentBlock, incs[..i]) + IncidentBlock(incs[i]) + ConcatMap(IncidentBlock, incs[i + 1..])
    ensures Contains(IncidentListHeader + ConcatMap(IncidentBlock, incs), "⚠️ " + incs[i].title + "\n")
    ensures Contains(IncidentListHeader + ConcatMap(IncidentBlock, incs), "Монитор: " + incs[i].monitorName + "\n")
    ensures Contains(IncidentListHeader + ConcatMap(IncidentBlock, incs), "Статус: " + incs[i].status + "\n")
    ensures Contains(IncidentListHeader + ConcatMap(IncidentBlock, incs), "Начало: " + incs[i].startedAt + "\n")
    ensures incs[i].resolvedAt != "" ==>
      Contains(IncidentListHeader + ConcatMap(IncidentBlock, incs), "Разрешено: " + incs[i].resolvedAt + "\n")
  {
    var inc := incs[i];
    var listing := IncidentListHeader + ConcatMap(IncidentBlock, incs);
    ConcatMapAt(IncidentBlock, incs, i);
    ConcatMapContains(IncidentBlock, incs, i);
    ContainsRight(IncidentListHeader, ConcatMap(IncidentBlock, incs), IncidentBlock(inc));
    var l1 := "⚠️ " + inc.title + "\n";
    var l2 := "Монитор: " + inc.monitorName + "\n";
    var l3 := "Статус: " + inc.status + "\n";
    var l4 := "Начало: " + inc.startedAt + "\n";
    var l5 := "Разрешено: " + inc.resolvedAt + "\n";
    var b4 := l1 + l2 + l3 + l4;
    var b5 := if inc.resolvedAt != "" then b4 + l5 else b4;
    assert IncidentBlock(inc) == b5 + "\n";
    ContainsSelf(l1);
    ContainsLeft(l1, l2, l1);
    ContainsLeft(l1 + l2, l3, l1);
    ContainsLeft(l1 + l2 + l3, l4, l1);
    ContainsSelf(l2);
    ContainsRight(l1, l2, l2);
    ContainsLeft(l1 + l2, l3, l2);
    ContainsLeft(l1 + l2 + l3, l4, l2);
    ContainsSelf(l3);
    ContainsRight(l1 + l2, l3, l3);
    ContainsLeft(l1 + l2 + l3, l4, l3);
    ContainsSelf(l4);
    ContainsRight(l1 + l2 + l3, l4, l4);
    if inc.resolvedAt != "" {
      ContainsLeft(b4, l5, l1);
      ContainsLeft(b4, l5, l2);
      ContainsLeft(b4, l5, l3);
      ContainsLeft(b4, l5, l4);
      ContainsSelf(l5);
      ContainsRight(b4, l5, l5);
      ContainsLeft(b5, "\n", l5);
      ContainsTrans(listing, IncidentBlock(inc), l5);
    }
    ContainsLeft(b5, "\n", l1);
    ContainsLeft(b5, "\n", l2);
    ContainsLeft(b5, "\n", l3);
    ContainsLeft(b5, "\n", l4);
    ContainsTrans(listing, IncidentBlock(inc), l1);
    ContainsTrans(listing, IncidentBlock(inc), l2);
    ContainsTrans(listing, IncidentBlock(inc), l3);
    ContainsTrans(listing, IncidentBlock(inc), l4);
  }
}
