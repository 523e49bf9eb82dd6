# Uptime Kuma Telegram bot: a verified model

This project models the core of a Telegram bot that reports on an Uptime Kuma
monitoring server to an allow-list of chats. It also models the SQLite store
the bot keeps for users, monitors, user-to-monitor assignments and payments.
There are three parts:

- `uptime_kuma_client.dfy` (module `UptimeKumaClient`) models the client.
  - It normalizes the server's raw monitor records into canonical ones, with a status of 1 or 0.
  - It looks monitors up by id and by name.
  - It reads the incident feed. When the feed fails, it falls back to incidents derived from the monitors.
  - It computes the status summary: total, up, down, maintenance and an uptime percentage.
  - Every fetch from the server is a parameter of type `Result`: either the returned list or the text of the exception it raised. The connection attempt is a parameter of type `Option`: the text of the connection error, or none when connecting succeeded.
- `bot.dfy` (module `Bot`) models the bot's side.
  - `ALLOWED_CHAT_IDS` is parsed into a list of ids, and a sender is checked against it.
  - The four command handlers (`/start`/`/help`, `/status`, `/monitors`, `/incidents`) are modelled.
  - Each handler is a method whose result is the sequence of messages it sends, in order.
  - The connection attempt and each fetch are inputs.
- `db_manager.dfy` (module `Database`) models the store as class `DbManager`.
  - Users, monitors and payments are maps; assignments are a set of (user id, monitor id) pairs.
  - Each method's effect is that of its SQL statement. Its boolean answer is stated against the state before the call.
  - Timestamps are integers, and the current time is a parameter.

`wrappers.dfy` holds `Option` and `Result`. `text.dfy` holds the Python string
operations the bot relies on: `str.split` on one character and its inverse
`join`, `str()` of an integer, substring occurrence, and the
one-fragment-per-element concatenation built by the handlers'
`response += ...` loops.

## Model

| member | source | states |
|---|---|---|
| `UptimeKumaClient.CanonicalStatus` | uptime_kuma_client.py:64-68 | The status is 0 or 1. It is 1 exactly when the record is active (absent counts as active), its raw status is not 0, and it is not in maintenance (absent counts as not). Maintenance always forces 0. |
| `UptimeKumaClient.NormalizeMonitor` | uptime_kuma_client.py:62-78 | Each field is the record's value or its default. The defaults are: id → text of the id or "None"; name "Unknown"; url ""; type "unknown"; active true; maintenance false. The status is the canonical one. A normalized monitor is never up while inactive or in maintenance. |
| `UptimeKumaClient.GetMonitors` | uptime_kuma_client.py:56-82 | On success the list has the same length and order as the server's, and element i is the normalization of raw record i. On failure the error is the fixed prefix followed by the exception text. |
| `UptimeKumaClient.GetMonitorById` | uptime_kuma_client.py:93-99 | The result is the first normalized monitor whose id text equals the argument. It is None exactly when no monitor matches. A fetch failure propagates. |
| `UptimeKumaClient.GetMonitorByName` | uptime_kuma_client.py:110-116 | The result is the first normalized monitor with that name. It is None exactly when none has it. A fetch failure propagates. |
| `UptimeKumaClient.FilterCount` | uptime_kuma_client.py:184-189 | The monitors a predicate selects number exactly as many as the predicate counts. Each of them satisfies the predicate and comes from the list. |
| `UptimeKumaClient.GetStatusSummary` | uptime_kuma_client.py:181-198 | The summary is computed from the freshly normalized list. A fetch failure propagates as the same error. |
| `UptimeKumaClient.BucketsPartitionActive` | uptime_kuma_client.py:184-189 | For normalized monitors, up + down + maintenance equals the number of active monitors. Every active monitor falls in exactly one bucket, and no inactive monitor falls in any. |
| `UptimeKumaClient.UpAtMostActive` | uptime_kuma_client.py:184-189 | The up count never exceeds the active count. |
| `UptimeKumaClient.TotalWhenAllActive` | uptime_kuma_client.py:183-189 | The total is the list length. It equals up + down + maintenance exactly when no monitor is inactive. |
| `UptimeKumaClient.AllActiveIff` | uptime_kuma_client.py:189 | The active count is at most the list length. It equals the length exactly when every monitor is active. |
| `UptimeKumaClient.UptimeInRange` | uptime_kuma_client.py:189-190 | The uptime lies between 0 and 100. It is exactly 100 when no monitor is active. |
| `UptimeKumaClient.NormalizeIncident` | uptime_kuma_client.py:133-141 | Each field is the feed's value or its default. The defaults are: title "Неизвестный инцидент"; status "unknown"; every other field "". |
| `UptimeKumaClient.SynthesizedLength` | uptime_kuma_client.py:156-168 | The fallback reports one incident per monitor that is active and has status 0. |
| `UptimeKumaClient.SynthesizedAt` | uptime_kuma_client.py:157-166 | The outage monitor at index i appears at the position equal to the number of outage monitors before it, so the fallback keeps list order. |
| `UptimeKumaClient.SynthesizedFrom` | uptime_kuma_client.py:157-166 | Every reported incident is the incident of some outage monitor of the list. |
| `UptimeKumaClient.OutagesAreDownPlusMaintenance` | uptime_kuma_client.py:156-168 | For normalized monitors, the fallback reports down + maintenance incidents. Active monitors under maintenance are reported too. |
| `UptimeKumaClient.CreateIncidentsFromMonitors` | uptime_kuma_client.py:154-168 | The loop yields exactly the derived incidents of the fetched list, in order. A fetch failure propagates. |
| `UptimeKumaClient.GetIncidents` | uptime_kuma_client.py:127-146 | When the feed answers, incident i is the normalization of feed record i, with the same length. When the feed fails, the result is the fallback computed from a fresh monitor fetch, or that fetch's error. |
| `Text.Split` | bot.py:21 | Like Python's `split` on one character, there is always at least one field, and no field contains the separator. |
| `Text.SplitJoin` | bot.py:21 | Splitting loses nothing: joining the fields with the separator gives back the text. |
| `Text.JoinSplit` | bot.py:21 | Splitting the join of separator-free fields gives back exactly those fields. |
| `Text.IntToString` | bot.py:30 | `str()` of an integer is non-empty and made of digits, with a leading '-' exactly for negative numbers. |
| `Text.IntToStringInjective` | bot.py:30-31 | Distinct integers print differently. |
| `Bot.AllowedChatIds` | bot.py:21 | The environment value (empty when unset), split on commas with nothing trimmed. The entries join back to the value, none contains a comma, and an empty value gives the single entry "". |
| `Bot.ConfiguredIdsRoundTrip` | bot.py:21 | A list of comma-free ids written into the variable is read back exactly. |
| `Bot.IsAuthorized` | bot.py:28-34 | The sender passes exactly when the text of its id is one of the entries. A pass sends nothing. A refusal sends the one access-denied notice. |
| `Bot.NumericAndTextIdsAgree` | bot.py:30-31 | A numeric id and its decimal text get the same verdict. |
| `Bot.EmptyAllowListDenies` | bot.py:21-34 | With the variable empty or unset, every numeric id and every sender with a non-empty id text is refused with the notice. |
| `Bot.EntryAdmitsOneNumericId` | bot.py:30-31 | A single allow-list entry admits at most one numeric user id. |
| `Bot.SendWelcome` | bot.py:37-48 | A refused sender gets only the notice. An allowed one gets only the welcome text. |
| `Bot.BuildProblemList` | bot.py:76-78 | The loop yields one "- name" line per monitor that is down, active and not in maintenance, in list order. |
| `Bot.GetStatus` | bot.py:51-83 | After authorization, the reply is exactly one of the following. (1) The connection error. (2) The summary fetch's error. (3) The labelled counts, when nothing is down. (4) The second fetch's error. (5) The counts, then the problems header, then the problem lines of the second fetch. |
| `Bot.StatusReportShowsCounts` | bot.py:63-68 | The status text contains the total, up, down and maintenance counts, each after its label, and the uptime followed by "%". |
| `Bot.ProblemSectionMatchesDown` | bot.py:71-78 | On a given list, the problem section has as many lines as the summary's down count. Each line is for a down monitor of the list, and every down monitor's line is in it. |
| `Bot.StatusEmoji` | bot.py:104-106 | Maintenance shows the wrench whatever the status. Otherwise status 1 shows the check mark and any other status the cross. |
| `Bot.BuildMonitorListing` | bot.py:101-111 | The loop yields the header followed by one line per monitor, in list order. |
| `Bot.ListMonitors` | bot.py:86-116 | After authorization, the reply is the connection error, the fetch error, the "not found" notice for an empty list, or the full listing. |
| `Bot.MonitorListingShowsEachMonitor` | bot.py:103-111 | Every monitor's line sits in the listing between the lines of the monitors before and after it. The listing shows each monitor's name and, when non-empty, its url. |
| `Bot.BuildIncidentListing` | bot.py:134-143 | The loop yields the header followed by one block per incident, in list order. |
| `Bot.ListIncidents` | bot.py:119-148 | After authorization, the reply is one of: the connection error; the error when both the feed and the fallback fetch fail; the "no incidents" notice for an empty list; or the listing of the feed's incidents (the fallback's if the feed failed). |
| `Bot.IncidentListingShowsEachIncident` | bot.py:136-143 | Every incident's block sits in order. Its title, monitor, status and start lines appear, and the resolved line appears when a resolution time is present. |
| `Database.UpsertUser` | db_manager.py:116-121 | The user's role, name and username become the arguments. A known user keeps its creation time and subscription expiry. A new user gets the current time and no subscription. All other users stay the same. |
| `Database.UsersWithRole` | db_manager.py:186-187 | Exactly the users with that role, with their stored rows. |
| `Database.MonitorsOf` | db_manager.py:279-285 | Exactly the stored monitors whose (user, monitor) pair is assigned. An assignment without a monitor row contributes nothing. |
| `Database.EffectivePaidAt` | db_manager.py:321-325 | A given payment time is written as is. PAID without one writes the current time. Any other status without one writes none, clearing an earlier time. |
| `Database.SetSubscriptionExpiry` | db_manager.py:378 | An unknown user creates no row. A known user gets the expiry and keeps every other field. Other users stay the same. |
| `Database.PaymentsNewestFirst` | db_manager.py:364-365 | The scan yields every payment of the user exactly once, with its stored row, ordered by creation time with the newest first. |
| `Database.DbManager.constructor` | db_manager.py:44-107 | A fresh store has four empty tables, and the next payment id is 1. |
| `Database.DbManager.AddOrUpdateUser` | db_manager.py:116-124 | The method answers true, and the users table becomes the upsert of the arguments. |
| `Database.DbManager.GetUser` | db_manager.py:137-139 | The stored row, or None exactly when there is no row for the id. |
| `Database.DbManager.GetAllUsers` | db_manager.py:151-153 | Every stored user with its row. |
| `Database.DbManager.DeleteUser` | db_manager.py:165-173 | True exactly when the user existed. Afterwards the user is absent and nothing else changed. Assignments and payments stay, with no cascade. |
| `Database.DbManager.GetUsersByRole` | db_manager.py:186-188 | Exactly the users with that role. |
| `Database.DbManager.AddOrUpdateMonitor` | db_manager.py:202-209 | The method answers true, and the monitor's row becomes the arguments whether it existed or not. |
| `Database.DbManager.GetMonitor` | db_manager.py:223-225 | The stored row, or None exactly when there is no row for the id. |
| `Database.DbManager.AssignMonitorToUser` | db_manager.py:239-246 | True exactly when the pair was absent. Afterwards the pair is present and no other pair changed. |
| `Database.DbManager.UnassignMonitorFromUser` | db_manager.py:259-266 | True exactly when the pair was present. Afterwards it is absent and other pairs are unchanged. |
| `Database.DbManager.GetUserMonitors` | db_manager.py:279-286 | Exactly the stored monitors assigned to the user. |
| `Database.DbManager.CreatePayment` | db_manager.py:301-308 | The new row gets the next id, which was unused, the arguments, the current time as its creation time and no payment time. The returned id is that id. |
| `Database.DbManager.UpdatePaymentStatus` | db_manager.py:321-337 | True exactly when the payment exists; an unknown id changes nothing. Otherwise the status and the effective payment time are written. On PAID the owner's subscription expiry becomes the payment's expiry. |
| `Database.DbManager.GetPayment` | db_manager.py:350-352 | The stored row, or None exactly when there is no row for the id. |
| `Database.DbManager.GetUserPayments` | db_manager.py:364-366 | Every payment of the user once, with its row, newest first. |
| `Database.DbManager.UpdateUserSubscriptionExpiry` | db_manager.py:378-381 | The method always answers true, also when no row matches. Only a known user's expiry changes. |
| `Database.DbManager.CheckSubscriptionStatus` | db_manager.py:391-397 | False when there is no user or no expiry. Otherwise the answer is whether the expiry is later than `now`. |
| `Database.AssignTwice` | db_manager.py:239-246 | Assigning the same pair a second time answers false and changes nothing. |
| `Database.RolesPartitionUsers` | db_manager.py:186-188 | Every user is listed under its own role and under no other. The three role listings together are exactly the users. |
| `Database.AssignmentChangesMonitorsOf` | db_manager.py:239-285 | An assignment adds exactly that monitor to the user's monitors, when the monitor has a row. An unassignment removes exactly it. |
| `Database.OtherUsersAssignmentsInvisible` | db_manager.py:279-285 | Another user's assignment never shows up among a user's monitors. |
| `Database.UpsertKeepsSubscription` | db_manager.py:116-121 | Re-registering a user, with any role or name, leaves whether its subscription is active unchanged. A new user has none. |
| `Database.PaymentActivatesSubscription` | db_manager.py:330-333 | After a payment is marked PAID, its owner is subscribed exactly when the owner has a row and the payment's expiry is later than `now`. No other user's status changes. |
| `Database.DeletedUserHasNoSubscription` | db_manager.py:389-397 | A deleted user's subscription is never active. |

The client's fallback for incidents reports every active monitor whose status
is 0. That includes monitors in maintenance, because normalization forces
their status to 0 (uptime_kuma_client.py:67-68, 158). The model follows the
code: `OutagesAreDownPlusMaintenance` states that the fallback reports
down + maintenance incidents.

## Left out

- Connecting, logging in and disconnecting are left out (uptime_kuma_client.py:7-38). They depend on the network, the credentials in the environment and the `async with` lifecycle. A failed connection is one input (`connectError`) of every handler. A failure while disconnecting after the reply was sent is not modelled.
- A fetch that raises is modelled only through its message text; exception classes and logging are not modelled.
- Bot.GetStatus: the uptime is printed from the parameter `uptimeText`, because the model does not include `round(uptime, 2)` on a binary float or Python's repr of it. `Summarize` computes the uptime as an exact rational number, and its range is proved by `UptimeInRange`.
- Raw monitor fields and raw incident fields (title, monitor_name, status, started_at, resolved_at) are modelled as `Option` values, and a JSON `null` counts as absent. The source's `get` with a default returns `None` for a key that is present with a null value, and the bot would then print "None" (for example "⚠️ None" or "Начало: None"). The model prints the default instead. A raw status is an integer. Python's `False == 0` and `0.0 == 0` are not modelled. The raw id is modelled as the text `str()` gives for it.
- The aiogram transport is not modelled: dispatch by command, polling, the bot token, and `message.answer` as a network call. A handler's output is the list of messages it sends.
- The SQLite error branches that log, roll back and answer False or None are not modelled. Without those errors, the store's methods answer as the model states.
- Database.DbManager.CreatePayment: the answer is always `Some`. The `None` answer happens only on a database error.
- Foreign keys are declared in the schema but never enforced, so no cascade is modelled (db_manager.py:79-80, 96). `DeleteUser` leaves the user's assignments and payments in place.
- Database.DbManager.GetAllUsers, Database.DbManager.GetUsersByRole and Database.DbManager.GetUserMonitors answer with the rows keyed by id. The order in which SQLite returns the rows is not modelled.
- Database.DbManager.GetUserPayments: when payments have equal creation times, their order is not stated, as in SQL.
- The store does not hold the `added_at` column of `user_monitors`.
- Timestamps are integers. `datetime.now()` is a parameter, and `fromisoformat` parsing is not modelled, including a malformed stored date (db_manager.py:395-400).
- The database path and directory creation are not modelled (db_manager.py:27-42).
- Database.DbManager.constructor models only a fresh database file. `CREATE TABLE IF NOT EXISTS` keeps the rows of an existing file (db_manager.py:51-98), and the model does not cover opening one.
- The demonstration block at the end of db_manager.py is not modelled.
- Role-based authorization through the store and reconciliation of administrators are not modelled: they are not in these files. The bot authorizes only against `ALLOWED_CHAT_IDS`.
