# Manufacturing KPI dashboard: a verified Dafny model

This project models the core logic of a Next.js dashboard for a bottling line and the Python
telemetry publisher that feeds it over MQTT. It covers:

- **Access control.** The seven roles, their permission tables and levels (`types/auth.ts`). The
  permission and level checks and the role list an administrator may assign (`lib/auth-utils.ts`).
  The 401/403/400/500 decision chain of the API wrappers (`lib/api-middleware.ts`). The gated
  user listing and creation (`app/api/users/route.ts`).
- **The production simulator.** A class whose state is the running flag, the current rate, the
  remaining downtime and the consecutive-defect counter (`lib/simulator.ts`). Random draws are
  method parameters.
- **KPI arithmetic.** The simplified TRS/OEE ratios and the good/warning/critical classification
  (`lib/calculations.ts`).
- **MQTT ingestion.** The service that routes messages by topic suffix, opens and closes downtimes,
  raises threshold alerts and recomputes the KPI snapshot over the last eight hours, together with its reconnect
  counter and singleton (`lib/mqtt-service.ts`). The second client with its own routing, field
  defaults, publish guard and reconnect rule (`lib/mqtt-client.ts`). The database is a `Database`
  object whose tables are sequences.
- **The telemetry publisher.** It builds one record per tick and runs a fault episode of two
  status messages (`test-mqtt.py`).
- **The test harness routes.** The bounded log buffer with its set of live SSE connections
  (`app/api/mqtt/test/logs/route.ts`). The registry of spawned test processes
  (`app/api/mqtt/test/route.ts`).
- **The report routes.** Downtime, production history, production orders, safety, maintenance,
  quality, teams and the current dashboard. Each one is a fold over rows already fetched from the
  database: sums, counts, group-by dictionaries kept in first-insertion order, sorted top-k
  lists and fixed-order buckets. It also covers each route's
  POST validation.
- **Export helpers.** Report-type and status labels, and which alert rows the PDF and Excel
  exports include (`lib/export-utils.ts`).

Modelling conventions:

- Database rows are inputs; writes update sequences held in an object.
- `Date.now`, `Math.random`, `toISOString` and `Math.sqrt` are parameters.
- JavaScript numbers are `int` where the source stores integers and `real` for ratios, with no
  rounding.
- A value that can be `null` or `undefined` is an `Option`.
- A division the source leaves unguarded, which yields `NaN` in JavaScript (serialised as
  `null`), is modelled as `None`; `Math.min` over an empty list is an explicit `Infinity`
  value; the one exception, a zero target rate in OrdersRoute.Performance, is 0 (see
  "## Left out").

Source behaviours the model keeps as written:

- `checkAndCreateAlerts` looks for a recent alert of type `kpiType.toLowerCase()` but creates
  alerts of type `warning`. A pass therefore never suppresses its own alerts.
- In `createAPIHandler`, a rejected handler promise is not caught by the validation `try`,
  because the handler's promise is returned, not awaited. It surfaces as the outer 500, not 400.
- The maintenance monthly trend increments a counter named after the task type. A task of type
  `cost` therefore adds 1 to the month's cost, and an unknown type leaves no trace.

## Model

| member | source | states |
|---|---|---|
| AuthTypes.ParseRole | types/auth.ts:3-32 | a parsed role prints back to the same string, and each of the seven role names parses to its role |
| AuthTypes.Level | types/auth.ts:98-106 | every role level lies between 1 and 7 |
| AuthTypes.LevelInjective | types/auth.ts:98-106 | distinct roles have distinct levels, VIEWER lowest and SUPER_ADMIN highest |
| AuthTypes.AllRolesComplete | types/auth.ts:3-32 | the role list contains every role exactly once |
| AuthTypes.OnlySuperAdminWildcard | types/auth.ts:41-95 | an entry with a `*` resource or action belongs to SUPER_ADMIN and to no other role |
| AuthTypes.DashboardReadListed | types/auth.ts:46-90 | every role other than SUPER_ADMIN lists `read` on `dashboard` |
| AuthTypes.UsersOnlyUnderAdmin | types/auth.ts:45-95 | outside SUPER_ADMIN, only ADMIN lists `users`, and no role lists `create` on `dashboard` |
| AuthTypes.GrantsNotMonotone | types/auth.ts:82-95 | VIEWER ranks below OPERATOR yet can read `energy` while OPERATOR cannot, and the reverse holds for `safety:create` |
| AuthUtils.AnyGrants | lib/auth-utils.ts:24-36 | true iff some entry is the global wildcard or names the resource with the action or `*` |
| AuthUtils.HasPermission | lib/auth-utils.ts:12-37 | SUPER_ADMIN is always granted; any other role is granted iff one of its entries grants the pair |
| AuthUtils.HasPermissionIsListing | lib/auth-utils.ts:24-36 | for a role other than SUPER_ADMIN, a grant is exactly a listing in that role's table |
| AuthUtils.EveryRoleReadsDashboard | lib/auth-utils.ts:12-37 | every role may read the dashboard |
| AuthUtils.RestrictedPermissions | lib/auth-utils.ts:12-37 | only SUPER_ADMIN and ADMIN hold any `users` permission, and only SUPER_ADMIN may create on `dashboard` |
| AuthUtils.RoleLevelTotalOrder | lib/auth-utils.ts:42-44 | the role-level check is reflexive, transitive, total and antisymmetric |
| AuthUtils.HasRoleLevel | lib/auth-utils.ts:42-44 | a user's level is at least the required role's; RoleLevelTotalOrder proves it a total order, AvailableRolesExact ties it to the assignable roles and ApiMiddleware.WithRoleRunsIffLevel to the role gate |
| AuthUtils.AvailableRolesExact | lib/auth-utils.ts:111-117 | a role is offered iff its level is at most the user's; the list has no duplicates and strictly decreasing levels |
| AuthUtils.GetAvailableRoles | lib/auth-utils.ts:111-117 | the offered roles are in decreasing level order; AvailableRolesExact states which are offered |
| AuthUtils.AllRolesByLevel | types/auth.ts:98-106 | the role list is sorted by decreasing level |
| AuthUtils.SuperAdminGetsAllRoles | lib/auth-utils.ts:111-117 | SUPER_ADMIN is offered all seven roles |
| AuthUtils.ViewerGetsOnlyViewer | lib/auth-utils.ts:111-117 | VIEWER is offered only VIEWER |
| AuthUtils.CharIndex | lib/auth-utils.ts:103 | the index drawn by `floor(random * 62)` is within the alphabet |
| AuthUtils.AlphabetIsAlphanumeric | lib/auth-utils.ts:100 | every alphabet character is a letter or a digit |
| AuthUtils.GenerateTempPassword | lib/auth-utils.ts:99-106 | the password has exactly 8 characters, each the alphabet character picked by its draw, all alphanumeric |
| ApiMiddleware.CreateErrorResponse | lib/api-middleware.ts:120-134 | the status defaults to 500 and the message to the generic text; details appear iff they are truthy |
| ApiMiddleware.CreateSuccessResponse | lib/api-middleware.ts:140-153 | the status defaults to 200, `success` is true, `data` is carried and a message appears iff one is given |
| ApiMiddleware.WithAuth | lib/api-middleware.ts:19-51 | no session gives 401 without calling the handler; a response the handler returns is passed through unchanged; a throwing handler gives 500 |
| ApiMiddleware.PermissionDenied | lib/api-middleware.ts:70-82 | the refusal is a 403 whose `required` field reads `action:resource` |
| ApiMiddleware.RoleDenied | lib/api-middleware.ts:101-113 | the refusal is a 403 naming the required role |
| ApiMiddleware.WithPermission | lib/api-middleware.ts:57-83 | a role without the permission gets the 403 refusal and the handler is not called; otherwise the handler is called as the inner layer decides |
| ApiMiddleware.WithRole | lib/api-middleware.ts:89-114 | a role below the required level gets the 403 refusal and the handler is not called; otherwise the handler is called as the inner layer decides |
| ApiMiddleware.WithValidation | lib/api-middleware.ts:159-191 | the handler is called iff there is a session and the data passes the schema; a session with invalid data gets 400 |
| ApiMiddleware.CreateAPIHandler | lib/api-middleware.ts:198-250 | the handler is only ever called for a session user who passes the configured check |
| ApiMiddleware.Validate | lib/api-middleware.ts:159-191 | the handler is called iff the schema accepts the body |
| ApiMiddleware.HandlerRunsIffAllowed | lib/api-middleware.ts:198-250 | the handler runs iff there is a session, the configured check passes and the data validates |
| ApiMiddleware.NoSessionIs401 | lib/api-middleware.ts:25-30 | without a session every handler answers 401 |
| ApiMiddleware.FailedCheckIs403 | lib/api-middleware.ts:57-114 | a failed permission or role check answers 403, naming `action:resource` when a permission was required |
| ApiMiddleware.InvalidDataIs400 | lib/api-middleware.ts:212-237 | an authorised request whose data fails the schema answers 400 |
| ApiMiddleware.HandlerFailureIs500 | lib/api-middleware.ts:42-50 | an authorised, valid request whose handler throws answers 500 |
| ApiMiddleware.PermissionOverridesRole | lib/api-middleware.ts:243-250 | when both a permission and a role are configured, only the permission is checked |
| ApiMiddleware.WithPermissionRunsIffPermitted | lib/api-middleware.ts:57-83 | the handler runs iff the session's role has the permission |
| ApiMiddleware.WithRoleRunsIffLevel | lib/api-middleware.ts:89-114 | the handler runs iff the session's role level is at least the required one |
| UsersRoute.MapPublic | app/api/users/route.ts:20-31 | one public record per user row, in order, without the password |
| UsersRoute.PostUser | app/api/users/route.ts:43-108 | the table changes only on creation, which appends exactly one row whose public view is returned |
| UsersRoute.PostKeepsEmailsUnique | app/api/users/route.ts:66-75 | creation keeps emails unique in the user table |
| UsersRoute.PostCreatesOnlyWhenAllowed | app/api/users/route.ts:46-101 | a user is created iff there is a session with `users:create`, email, password and role are present, the email is unused and the role is known; the new row is active and stores the hash |
| UsersRoute.DuplicateEmailIs409 | app/api/users/route.ts:66-75 | an email already present answers 409 and leaves the table unchanged |
| UsersRoute.GetUsers | app/api/users/route.ts:8-40 | a listing has one entry per user row, each the public view of a row of the table |
| UsersRoute.ListingOnlyForAdmins | app/api/users/route.ts:8-40 | a listing is answered iff the session role is SUPER_ADMIN or ADMIN and the query succeeds |
| UsersRoute.ListingIsTableNewestFirst | app/api/users/route.ts:19-33 | for every session it is answered to, the listing has one public record per row, every row's record, newest first |
| UsersRoute.NoSessionIs401 | app/api/users/route.ts:9-48 | without a session user both verbs answer 401, and creation leaves the table unchanged |
| UsersRoute.OtherRolesAre403 | app/api/users/route.ts:15-52 | every role other than SUPER_ADMIN and ADMIN gets 403 from both verbs, and creation leaves the table unchanged |
| UsersRoute.MissingFieldsAre400 | app/api/users/route.ts:58-63 | a permitted creation missing e-mail, password or role answers 400 and leaves the table unchanged |
| Shifts.CurrentShift | lib/simulator.ts:129-139 | hours [6,14) are MATIN, [14,22) APRES_MIDI and every other hour NUIT |
| Shifts.ShiftNameInjective | lib/mqtt-client.ts:209-214 | distinct shifts have distinct identifiers |
| Simulator.Scale | lib/simulator.ts:69-122 | `floor(random * n)` lies in [0, n) |
| Simulator.RateVariation | lib/simulator.ts:69-83 | the new rate stays in [102, 128]; it is pulled 2 toward the target when more than 5 away; a rate pushed below 100 ends at 102 and one pushed above 130 ends at 128 |
| Simulator.RestartVariesTo102 | lib/simulator.ts:34-48 | from the restart rate 84 the next varied rate is 102 |
| Simulator.RateVariationStep | lib/simulator.ts:69-83 | starting from a rate inside [100, 130], one variation moves the rate by at most 12 |
| Simulator.ExtraDefects | lib/simulator.ts:99-105 | a quality issue adds 3 to 7 defects, otherwise none |
| Simulator.ProductionSimulator.constructor | lib/simulator.ts:6-21 | the simulator starts running at rate 120 with no downtime and no defects |
| Simulator.ProductionSimulator.GetStatus | lib/simulator.ts:161-170 | the status reports the current fields and target 120 |
| Simulator.ProductionSimulator.TriggerDowntime | lib/simulator.ts:116-122 | downtime is set to a value in [30, 299], the line stops and the rate drops to 0 |
| Simulator.ProductionSimulator.SimulateDefects | lib/simulator.ts:89-111 | the defect count is the per-bottle hits plus the quality-issue extra, within [0, bottles + 7]; the streak counter follows the source's update |
| Simulator.ProductionSimulator.GenerateData | lib/simulator.ts:28-67 | downtime counts down by one while stopped; a restart reports rate 102; otherwise a downtime may start or the rate varies; a point has target 120, bottles = rate / 60 and no output when stopped; the consecutive-defect counter is updated as SimulateDefects states (down by one after a defect-free draw, otherwise up by the per-bottle hits plus the quality-issue defects) |
| Simulator.ProductionSimulator.GetCurrentShift | lib/simulator.ts:129-139 | the shift partitions the hours as above |
| Simulator.ProductionSimulator.ForceDowntime | lib/simulator.ts:144-150 | downtime is set to the given seconds and the line stops |
| Simulator.ProductionSimulator.ForceRestart | lib/simulator.ts:152-156 | downtime is cleared, the line runs and the rate is 96 |
| Simulator.SimulatorHolder.GetSimulator | lib/simulator.ts:175-180 | the first call creates the simulator and later calls return the same one |
| Calculations.CalculateSimplifiedTRS | lib/calculations.ts:13-56 | each ratio is the guarded percentage (0 when its denominator is not positive) and trs = availability × performance × quality / 10000 |
| Calculations.PerfectRatios | lib/calculations.ts:28-45 | no downtime gives availability 100 and no defects gives quality 100 |
| Calculations.RatiosArePercentages | lib/calculations.ts:28-48 | with consistent inputs availability and quality lie in [0, 100] and 0 ≤ trs ≤ performance |
| Calculations.GetKPIStatus | lib/calculations.ts:61-68 | good iff value ≥ good; warning iff warning ≤ value < good; critical otherwise |
| Calculations.KPIStatusMonotone | lib/calculations.ts:61-68 | when warning ≤ good, raising the value never worsens the status |
| Calculations.ThresholdsOrdered | lib/calculations.ts:81-102 | every KPI has excellent > good > warning |
| Records.Minutes | lib/mqtt-service.ts:348-350 | whole minutes between two instants, floored, never negative when ordered (the same rule at line 205) |
| MqttService.RouteOf | lib/mqtt-service.ts:125-133 | `/data` topics go to production handling, `/status` topics to status handling, all others are ignored |
| MqttService.SuffixesExclusive | lib/mqtt-service.ts:128-132 | no topic ends in both suffixes |
| MqttService.CategorizeDowntime | lib/mqtt-service.ts:223-237 | the lower-cased reason is tested for panne/breakdown, then changement/setup, then maintenance, then matière/material, in that priority, giving breakdown, changeover, maintenance or material; a reason with none of the nine keywords gives other |
| MqttService.CategorizeIgnoresCase | lib/mqtt-service.ts:223-237 | categorising is insensitive to case |
| MqttService.ResolveAll | lib/mqtt-service.ts:198-214 | each downtime row is replaced by its resolved version, in place |
| MqttService.ResolveAllCloses | lib/mqtt-service.ts:198-214 | afterwards every row is resolved; already-resolved rows are untouched; each opened row gets end time now and a non-negative duration |
| MqttService.Decide | lib/mqtt-service.ts:251-278 | CADENCE fires iff rate < minValue, TEMPERATURE iff temperature > maxValue, DEFECT_RATE iff the defect percentage exceeds maxValue; other types never fire |
| MqttService.ThresholdAlert | lib/mqtt-service.ts:293-303 | a created alert is of type `warning`, unresolved, stamped now, with the decision's message and actual value |
| MqttService.StopDowntime | lib/mqtt-service.ts:176-185 | the recorded stop starts now, is open and unresolved, and carries the reason and its category |
| MqttService.StopAlert | lib/mqtt-service.ts:189-197 | the stop alert is of type `error`, severity `high`, unresolved and stamped now |
| MqttService.RecentAlert | lib/mqtt-service.ts:282-291 | the ten-minute duplicate test; AlertPassAppends states how a pass relates to it |
| MqttService.AlertPass | lib/mqtt-service.ts:239-312 | the thresholds in order, each creating an alert unless one of its type is recent; AlertPassAppends states what a pass adds |
| MqttService.AlertPassAppends | lib/mqtt-service.ts:239-312 | a pass only appends new `warning` alerts stamped now and unresolved, and never changes whether a non-warning type counts as recently alerted |
| MqttService.Availability | lib/mqtt-service.ts:325-335 | availability is in [0, 100] and is 100 iff every point in the window was running |
| MqttService.RatioAtMostOne | lib/mqtt-service.ts:325-335 | a part-of-whole ratio is a percentage, 100 iff part = whole |
| MqttService.Quality | lib/mqtt-service.ts:325-335 | quality is 100 when nothing was produced; otherwise quality × produced = (produced − defects) × 100, a percentage when defects do not exceed production |
| MqttService.Performance | lib/mqtt-service.ts:331-334 | performance × 120 × points = produced × 100 |
| MqttService.Trs | lib/mqtt-service.ts:336 | TRS × 10000 = availability × performance × quality |
| MqttService.PercentOf | lib/mqtt-service.ts:325-335 | the percentage times the whole is 100 times the part, and it lies in [0, 100] when the part is within the whole |
| MqttService.SnapshotOf | lib/mqtt-service.ts:314-336 | a snapshot exists iff the last eight hours hold a point, and it is stamped now |
| MqttService.SnapshotFacts | lib/mqtt-service.ts:314-395 | a snapshot is written iff the last eight hours have points; it totals production and defects over that window; its availability, performance, quality and TRS are those of Availability, Performance, Quality and Trs over the window; it carries the summed downtime |
| MqttService.DowntimeTotalNonNegative | lib/mqtt-service.ts:345-351 | with well-ordered times the total downtime is not negative |
| MqttService.TotalDowntime | lib/mqtt-service.ts:338-351 | the minutes of the stops of the last eight hours; DowntimeTotalNonNegative states its bound |
| MqttService.DowntimeMinutesValue | lib/mqtt-service.ts:345-351 | DowntimeMinutes, one stop's minutes: its duration when truthy, else the whole minutes (floor) of its closed span, else the whole minutes up to now, never negative for an ordered span; DowntimeTotalNonNegative sums these |
| MqttService.ProductionRowOf | lib/mqtt-service.ts:146-158 | the inserted row; MqttClient.AgreesWithService relates it to the client's row |
| MqttService.MQTTService.constructor | lib/mqtt-service.ts:25-53 | a new service has a client, is not connected and has no reconnect attempts |
| MqttService.MQTTService.Connect | lib/mqtt-service.ts:34-53 | a failure to create the client schedules a reconnect while attempts remain |
| MqttService.MQTTService.OnConnect | lib/mqtt-service.ts:57-79 | connecting sets the connected flag and resets attempts |
| MqttService.MQTTService.OnErrorOrOffline | lib/mqtt-service.ts:89-97 | an error or going offline clears the connected flag and nothing else |
| MqttService.MQTTService.OnReconnect | lib/mqtt-service.ts:99-107 | each reconnect adds one attempt and ends the client at the tenth |
| MqttService.MQTTService.ScheduleReconnect | lib/mqtt-service.ts:116-123 | a reconnect is scheduled iff fewer than ten attempts were made |
| MqttService.MQTTService.OnClose | lib/mqtt-service.ts:109-113 | closing clears the connected flag and schedules a reconnect while attempts remain |
| MqttService.MQTTService.IsClientConnected | lib/mqtt-service.ts:397-399 | reports the connected flag |
| MqttService.MQTTService.Disconnect | lib/mqtt-service.ts:401-408 | with a client, it ends the client, drops it and clears the flag; without one it changes nothing |
| MqttService.MQTTService.HandleStatusUpdate | lib/mqtt-service.ts:172-221 | a stop appends one open downtime and one alert; a running-true status resolves every open downtime; anything else changes nothing |
| MqttService.MQTTService.CheckAndCreateAlerts | lib/mqtt-service.ts:239-312 | the alert table becomes the alert pass over the active thresholds; the other tables are unchanged |
| MqttService.MQTTService.UpdateKPISnapshots | lib/mqtt-service.ts:314-395 | the snapshot is replaced by the new one when the window is non-empty, and kept otherwise |
| MqttService.MQTTService.HandleProductionData | lib/mqtt-service.ts:135-170 | an incomplete message changes nothing; a complete one appends a row, runs the alert pass and refreshes the snapshot |
| MqttService.MQTTService.HandleMessage | lib/mqtt-service.ts:125-133 | a `/data` message with every field appends its production row, runs the alert pass and refreshes the snapshot, and an incomplete one changes nothing; a `/status` stop appends one open downtime and one alert, a running status resolves every open downtime, and any other status changes nothing; any other topic changes nothing |
| MqttService.ServiceHolder.GetMQTTService | lib/mqtt-service.ts:412-419 | the first call creates the service and later calls return the same one |
| MqttService.ServiceHolder.DisconnectMQTT | lib/mqtt-service.ts:421-426 | the instance is disconnected and forgotten |
| MqttClient.RouteOf | lib/mqtt-client.ts:110-122 | topics containing `/data`, then `/status`, then `/alert` go to the matching handler, first match wins |
| MqttClient.DefaultedRow | lib/mqtt-client.ts:127-146 | a falsy timestamp falls back to now, count, rate and defects to 0, target to 120, and the line stops only on `running === false` |
| MqttClient.AgreesWithService | lib/mqtt-client.ts:127-146 | on a complete message the client's row equals the service's iff the timestamp and target are truthy (or the defaults coincide) |
| MqttClient.StopRow | lib/mqtt-client.ts:153-163 | a stop opens an unplanned downtime now, with reason defaulting to PANNE |
| MqttClient.CloseOpen | lib/mqtt-client.ts:164-176 | every downtime with no end that is unresolved gets end time now and is resolved, its duration untouched; other rows are unchanged |
| MqttClient.CloseOpenCloses | lib/mqtt-client.ts:164-176 | afterwards no downtime is open, and closing again changes nothing |
| MqttClient.DefaultedAlert | lib/mqtt-client.ts:187-204 | type, severity and message fall back to QUALITY_ISSUE, MEDIUM and the default text; the alert is unresolved and stamped now |
| MqttClient.MQTTClient.constructor | lib/mqtt-client.ts:5-12 | a new client has no connection, no attempts and no traffic |
| MqttClient.MQTTClient.Disconnect | lib/mqtt-client.ts:243-252 | with a client it drops it, clears the flag and resets attempts |
| MqttClient.MQTTClient.Connect | lib/mqtt-client.ts:14-78 | an existing client is disconnected first; the result is true iff the new client was created |
| MqttClient.MQTTClient.OnConnect | lib/mqtt-client.ts:33-39 | connecting sets the flag, resets attempts and subscribes to the four topics |
| MqttClient.MQTTClient.SubscribeToTopics | lib/mqtt-client.ts:83-105 | subscribes only when connected |
| MqttClient.MQTTClient.OnErrorOrClose | lib/mqtt-client.ts:52-62 | an error or close clears the connected flag only |
| MqttClient.MQTTClient.OnReconnect | lib/mqtt-client.ts:64-72 | each reconnect adds an attempt; at five the client disconnects and attempts return to 0 |
| MqttClient.MQTTClient.Publish | lib/mqtt-client.ts:219-238 | a message is sent iff the client exists, is connected and the library call does not throw; only a sent message is added to the published log |
| MqttClient.MQTTClient.IsClientConnected | lib/mqtt-client.ts:257-259 | true iff the flag is set, a client exists and the library reports it connected |
| MqttClient.MQTTClient.GetStats | lib/mqtt-client.ts:264-270 | reports the flag, the attempts and whether a client exists |
| MqttClient.MQTTClient.SaveProductionData | lib/mqtt-client.ts:127-146 | appends the defaulted row and nothing else |
| MqttClient.MQTTClient.UpdateMachineStatus | lib/mqtt-client.ts:151-182 | a stop appends an open downtime; any other status closes every open downtime |
| MqttClient.MQTTClient.CreateAlert | lib/mqtt-client.ts:187-204 | appends the defaulted alert and nothing else |
| MqttClient.MQTTClient.HandleMessage | lib/mqtt-client.ts:110-122 | production messages append the defaulted row, alert messages the defaulted alert; a status message appends a stop row when running is false and otherwise closes every open downtime; every other table is unchanged |
| MqttClient.ClientHolder.GetMQTTClient | lib/mqtt-client.ts:274-281 | the first call creates the client and later calls return the same one |
| TelemetryPublisher.IterationShape | test-mqtt.py:37-76 | one telemetry record per tick (rate 100-130, count 1-3, target 120, 0 or 1 defects, running, temperature 21-24, pressure 2.3-2.7), then on a fault exactly a stop and a restart status, both with reason PANNE; all at qos 1 |
| TelemetryPublisher.ServiceUnderstandsEpisode | test-mqtt.py:60-73 | the service routes the publisher's topics to production and status handling, reads the fault as a stop and categorises PANNE as a breakdown |
| TelemetryPublisher.RunShape | test-mqtt.py:37-76 | a run publishes only at qos 1 and exactly one telemetry record per tick |
| TelemetryPublisher.Publisher.constructor | test-mqtt.py:24-36 | a publisher starts with counter 0 and nothing published |
| TelemetryPublisher.Publisher.OnConnect | test-mqtt.py:14-18 | success iff rc is 0 |
| TelemetryPublisher.Publisher.Iterate | test-mqtt.py:38-76 | the counter grows by one and the tick's publications are appended in order |
| TelemetryPublisher.Publisher.Run | test-mqtt.py:37-76 | after n ticks the counter has grown by n and the publications are the ticks' in order |
| TelemetryPublisher.Publisher.Shutdown | test-mqtt.py:78-86 | the client is disconnected |
| TestLogs.Appended | app/api/mqtt/test/logs/route.ts:63-68 | the buffer gains the message at its end and keeps only the last 100 |
| TestLogs.AppendedIsLastN | app/api/mqtt/test/logs/route.ts:63-68 | after any sequence of messages the buffer holds the last 100 of all of them |
| TestLogs.Without | app/api/mqtt/test/logs/route.ts:85-88 | pruning never adds connections |
| TestLogs.WithoutMembers | app/api/mqtt/test/logs/route.ts:85-88 | a connection survives iff it was present and did not fail |
| TestLogs.FailedMembers | app/api/mqtt/test/logs/route.ts:71-83 | the dead list is exactly the present connections that failed |
| TestLogs.WithoutNoDup | app/api/mqtt/test/logs/route.ts:5 | pruning keeps the connection set free of duplicates |
| TestLogs.Sends | app/api/mqtt/test/logs/route.ts:73-83 | one event is sent to each live connection, in order |
| TestLogs.Replay | app/api/mqtt/test/logs/route.ts:18-25 | a new stream receives every buffered log, in order |
| TestLogs.BroadcastKeepsLiveStreams | app/api/mqtt/test/logs/route.ts:71-88 | a broadcast reaches, and keeps, exactly the connections that did not fail |
| TestLogs.LogHub.constructor | app/api/mqtt/test/logs/route.ts:5-9 | no logs and no connections at start |
| TestLogs.LogHub.Broadcast | app/api/mqtt/test/logs/route.ts:71-88 | sends to every live connection and removes exactly the failed ones |
| TestLogs.LogHub.SendToAll | app/api/mqtt/test/logs/route.ts:71-83 | the returned dead list is exactly the failed connections |
| TestLogs.LogHub.DeleteAll | app/api/mqtt/test/logs/route.ts:85-88 | removes exactly the listed connections |
| TestLogs.LogHub.BroadcastLog | app/api/mqtt/test/logs/route.ts:63-89 | the message enters the bounded buffer and is broadcast with pruning |
| TestLogs.LogHub.BroadcastMqttData | app/api/mqtt/test/logs/route.ts:92-110 | the buffer is unchanged; the data is broadcast with pruning |
| TestLogs.LogHub.Open | app/api/mqtt/test/logs/route.ts:11-25 | the stream joins the set and receives the buffered logs unless it fails |
| TestLogs.LogHub.Beat | app/api/mqtt/test/logs/route.ts:27-35 | a heartbeat is sent, or a failing stream is removed |
| TestLogs.LogHub.Abort | app/api/mqtt/test/logs/route.ts:37-46 | an aborted stream leaves the set |
| TestRunner.StatusRows | app/api/mqtt/test/route.ts:37-41 | one row per registry entry with its id, pid and whether it is still alive |
| TestRunner.LivePids | app/api/mqtt/test/route.ts:184-195 | every signalled pid belongs to a registry entry that was not already killed |
| TestRunner.LivePidsExact | app/api/mqtt/test/route.ts:184-195 | there is one signalled pid per live entry, and every live entry's pid is signalled |
| TestRunner.Delete | app/api/mqtt/test/route.ts:143-153 | removes exactly the entries with that id |
| TestRunner.DeleteKeepsDistinct | app/api/mqtt/test/route.ts:8 | deleting keeps registry ids distinct |
| TestRunner.Runner.constructor | app/api/mqtt/test/route.ts:7-8 | the registry starts empty |
| TestRunner.Runner.Get | app/api/mqtt/test/route.ts:34-54 | reports running iff the registry is non-empty, with one status row per entry |
| TestRunner.Runner.Post | app/api/mqtt/test/route.ts:10-32 | `start` starts (409 while a process is registered, 500 with the registry still empty when the spawn fails), `stop` stops, any other action answers 400, an unreadable body answers 500 and neither registers nor signals a process |
| TestRunner.Runner.Start | app/api/mqtt/test/route.ts:56-169 | an occupied registry answers 409 and changes nothing; a spawn adds exactly one entry and logs the launcher and the pid |
| TestRunner.Runner.Stop | app/api/mqtt/test/route.ts:171-212 | an empty registry reports nothing to stop; otherwise every entry is removed, the live ones are signalled in order and counted, and every live process's pid is signalled |
| TestRunner.LauncherLine | app/api/mqtt/test/route.ts:76-86 | the wrapper-script line when the wrapper exists, the python3 line otherwise |
| TestRunner.Runner.OnExit | app/api/mqtt/test/route.ts:143-153 | the process's entry is deleted and the exit is logged |
| TestRunner.Runner.OnOutput | app/api/mqtt/test/route.ts:111-141 | standard output and errors are logged with their prefixes |
| TestRunner.StopStep | app/api/mqtt/test/route.ts:183-197 | each step of the stop loop counts and signals exactly the entries not already killed |
| DowntimeRoute.Fetch | app/api/downtime/route.ts:14-30 | the `limit` newest (default 50) of the period's rows (default 1440 minutes): as many as exist up to the limit, newest first, a sub-multiset of the period's rows (no row repeated), and no row of the period left out is newer than one kept |
| DowntimeRoute.Summarise | app/api/downtime/route.ts:33-47 | the summary of the rows; ByReasonAddsUp, CountsWithinTotal and MttrIsMean state its totals |
| DowntimeRoute.Mttr | app/api/downtime/route.ts:44-47 | the mean repair time; MttrIsMean and MttrWithoutRepairs state it |
| DowntimeRoute.ByReasonAddsUp | app/api/downtime/route.ts:33-41 | the per-reason durations add up to the total, one entry per reason |
| DowntimeRoute.ReasonMinutes | app/api/downtime/route.ts:38-41 | each reason maps to the summed duration of its rows, and absent reasons are absent |
| DowntimeRoute.CountsWithinTotal | app/api/downtime/route.ts:34-35 | planned plus unplanned never exceed the number of rows |
| DowntimeRoute.MttrIsMean | app/api/downtime/route.ts:44-47 | with resolved timed rows, mttr times their count is their total duration (their mean) |
| DowntimeRoute.MttrWithoutRepairs | app/api/downtime/route.ts:44-47 | mttr is 0 without a resolved timed row |
| DowntimeRoute.Post | app/api/downtime/route.ts:83-117 | missing reason or category answers 400; otherwise an unresolved downtime starting now is created |
| HistoryRoute.Fetch | app/api/production/history/route.ts:14-30 | the `limit` oldest (default 100) of the period's points (default 60 minutes): as many as exist up to the limit, oldest first, a sub-multiset of the period's points (no point repeated), and no point of the period left out is older than one kept |
| HistoryRoute.MinRunningRate | app/api/production/history/route.ts:45 | the minimum over running rows, Infinity iff none is running |
| HistoryRoute.Chart | app/api/production/history/route.ts:48-60 | one chart point per row, in order, copying its fields |
| HistoryRoute.Respond | app/api/production/history/route.ts:32-74 | no rows gives empty data and no summary |
| HistoryRoute.SummaryFacts | app/api/production/history/route.ts:40-72 | totals are sums, maxRate is MaxOf the rates and bounds every rate, minRate is MinRunningRate and ≤ maxRate when finite, avgRate is the Average of the rates, defectRate is the Percentage of defects when something was produced and 0 otherwise, the period defaults to 60, one data point per row |
| HistoryRoute.Average | app/api/production/history/route.ts:42 | the mean times the number of points gives back the sum of the rates |
| HistoryRoute.Percentage | app/api/production/history/route.ts:71 | the defect rate times the bottles produced gives back 100 times the defects |
| OrdersRoute.OrderOeeParts | app/api/production/orders/route.ts:45-65 | a timed order with no downtime has availability 100; no run time gives performance 0; no elapsed time gives availability 0 |
| OrdersRoute.LineRows | app/api/production/orders/route.ts:103-109 | one row per line with its totals; efficiency is absent when the line's target is 0 |
| OrdersRoute.MixRows | app/api/production/orders/route.ts:117-121 | one row per product with its produced total |
| OrdersRoute.Views | app/api/production/orders/route.ts:144-165 | one view per listed order, in order |
| OrdersRoute.OeeTotals | app/api/production/orders/route.ts:45-65 | the loop totals are the sums of availability and performance over the timed orders, and 98 per order for quality |
| OrdersRoute.ComputeMetrics | app/api/production/orders/route.ts:34-91 | the metrics equal their specification over all orders |
| OrdersRoute.ReportMetrics | app/api/production/orders/route.ts:39-91 | the metrics over the completed timed orders' OEE parts, the specification ComputeMetrics meets; OeeGuards and RateGuards state its guards |
| OrdersRoute.Performance | app/api/production/orders/route.ts:45-65 | one order's performance against its target rate; OrderOeeParts states its guards |
| OrdersRoute.Get | app/api/production/orders/route.ts:7-182 | the listing honours the filters; metrics, per-line rows, the product mix sorted by value and the two charts derive from all orders |
| OrdersRoute.LinesAddUp | app/api/production/orders/route.ts:95-107 | summed over lines, produced, target and order counts equal the overall totals; lines are distinct |
| OrdersRoute.MixAddsUp | app/api/production/orders/route.ts:111-121 | the product mix is sorted by non-increasing value, has one row per product and sums to total production |
| OrdersRoute.MixRowsSum | app/api/production/orders/route.ts:117-121 | the mix rows carry the grouped values unchanged |
| OrdersRoute.StatusCountsBounded | app/api/production/orders/route.ts:88-91 | the four status counts add up to at most the number of orders |
| OrdersRoute.OeeGuards | app/api/production/orders/route.ts:39-67 | with no timed completed order every OEE figure is 0; otherwise quality is 98 |
| OrdersRoute.RateGuards | app/api/production/orders/route.ts:34-76 | average rate is 0 with no rated order, efficiency is 0 with no target, setup time sums with null as 0 |
| OrdersRoute.ChartShapes | app/api/production/orders/route.ts:130-142 | four status slices named En cours, Terminé, En attente, En pause carrying the running, completed, waiting and paused counts (together at most the number of orders), and three OEE bars carrying availability, performance and quality against targets 90, 95 and 99 |
| OrdersRoute.StatusDistribution | app/api/production/orders/route.ts:130-135 | the status pie; ChartShapes states its names and counts |
| OrdersRoute.OeeComponents | app/api/production/orders/route.ts:138-142 | the OEE bars with numeric targets; ChartShapes states their values and targets |
| OrdersRoute.Timed | app/api/production/orders/route.ts:39 | a completed order whose start and end dates are present; OeeGuards and OeeTotals state the averages over these orders |
| OrdersRoute.NoFilterListsAll | app/api/production/orders/route.ts:15-20 | no status filter and line `all` list every order |
| Common.FilterAllAdmitsEverything | app/api/production/orders/route.ts:15-20 | an absent filter or `all` admits every value |
| SafetyRoute.Listing | app/api/safety/route.ts:14-25 | the listing is exactly the incidents passing the filters, newest first |
| SafetyRoute.DaysSinceLastAccident | app/api/safety/route.ts:31-39 | 365 without accidents, otherwise the whole days elapsed since the latest accident |
| SafetyRoute.Metric | app/api/safety/route.ts:31-65 | the metrics block; MetricFacts and DaysLostOverAccidents state its counts, rates and days lost |
| SafetyRoute.ByType | app/api/safety/route.ts:67-72 | the four type slices; Slices states their names and counts |
| SafetyRoute.BySeverity | app/api/safety/route.ts:75-81 | the four severity slices; Slices states their names and counts |
| SafetyRoute.Slices | app/api/safety/route.ts:68-81 | four type slices and four severity slices in fixed order, each the count of its type or severity, each family adding up to at most the number of incidents |
| SafetyRoute.LocationRows | app/api/safety/route.ts:84-92 | one row per location with its count |
| SafetyRoute.Trend | app/api/safety/route.ts:95-117 | one row per month, months ascending, each total = accidents + near misses + unsafe conditions |
| SafetyRoute.Get | app/api/safety/route.ts:8-155 | the report's listing, metrics, type and severity slices, locations sorted by count and trend derive from the incidents |
| SafetyRoute.LocationRowsSum | app/api/safety/route.ts:84-92 | the location rows carry the grouped counts unchanged |
| SafetyRoute.LocationsAddUp | app/api/safety/route.ts:84-92 | location counts add up to the number of incidents and are sorted non-increasing |
| SafetyRoute.TrendTotals | app/api/safety/route.ts:99-117 | the monthly totals add up to the recent incidents other than non-compliance |
| SafetyRoute.UnfilteredListing | app/api/safety/route.ts:14-25 | without filters every incident is listed |
| SafetyRoute.MetricFacts | app/api/safety/route.ts:42-65 | open plus closed and the three type counts stay within the total; without accidents the rates and days lost are 0 |
| SafetyRoute.KindCounts | app/api/safety/route.ts:53-60 | the type counts add up to at most the number of incidents |
| SafetyRoute.DaysLostOverAccidents | app/api/safety/route.ts:47 | one more incident adds its days lost to the total when it is an accident and leaves the total unchanged otherwise |
| SafetyRoute.Post | app/api/safety/route.ts:158-210 | a missing type, severity, title, location or reporter answers 400; a created incident is open and stamped now |
| MaintenanceRoute.Get | app/api/maintenance/route.ts:15-115 | the listing honours the filters; metrics, monthly trend and type slices derive from all tasks |
| MaintenanceRoute.Mttr | app/api/maintenance/route.ts:43-49 | the mean actual duration of the completed timed repairs; MttrIsMean and MttrWithoutRepairs state it |
| MaintenanceRoute.Metric | app/api/maintenance/route.ts:43-78 | the metrics block; MttrIsMean, MtbfRule, AvailabilityBounds and StatusCounts state its parts |
| MaintenanceRoute.ByType | app/api/maintenance/route.ts:111-115 | the three type slices; TypeSlices states their names and counts |
| MaintenanceRoute.TypeSlices | app/api/maintenance/route.ts:111-115 | preventive, corrective and emergency in fixed order, each the count of its type, together at most the number of tasks |
| MaintenanceRoute.Tally | app/api/maintenance/route.ts:92-100 | one task's contribution to its month; TallyCounts states it |
| MaintenanceRoute.Mtbf | app/api/maintenance/route.ts:52-55 | the time between failures is always positive (MtbfRule gives its value) |
| MaintenanceRoute.Availability | app/api/maintenance/route.ts:58-62 | the share of the 720-hour period not lost to completed tasks' downtime; AvailabilityBounds bounds it |
| MaintenanceRoute.MttrIsMean | app/api/maintenance/route.ts:43-49 | with completed timed repairs, mttr times their count is their total actual duration (their mean) |
| MaintenanceRoute.MttrWithoutRepairs | app/api/maintenance/route.ts:43-49 | mttr is 0 without a completed timed repair |
| MaintenanceRoute.MtbfRule | app/api/maintenance/route.ts:52-55 | more than one breakdown gives 720 / breakdowns (at most 360); otherwise 342.5 |
| MaintenanceRoute.AvailabilityBounds | app/api/maintenance/route.ts:58-62 | no downtime hours give 100, and non-negative hours keep availability at most 100 |
| MaintenanceRoute.SumRealNonNegative | app/api/maintenance/route.ts:58-62 | summed downtime hours are non-negative unless some task has negative hours |
| MaintenanceRoute.StatusCounts | app/api/maintenance/route.ts:68-78 | the status counts add up to at most the number of tasks |
| MaintenanceRoute.TallyCounts | app/api/maintenance/route.ts:92-100 | each task adds one to its type's counter when the type is known, and nothing otherwise |
| MaintenanceRoute.TrendCounts | app/api/maintenance/route.ts:92-108 | the monthly counters add up to the number of recent tasks of a known type |
| MaintenanceRoute.TrendMonthsDistinct | app/api/maintenance/route.ts:92-108 | each month appears once and there are no more months than tasks |
| MaintenanceRoute.RecentOrder | app/api/maintenance/route.ts:81-89 | the recent tasks are exactly those scheduled since the cut-off, earliest first |
| MaintenanceRoute.Post | app/api/maintenance/route.ts:153-209 | a missing equipment, type, title or date answers 400; a created task is planned with priority defaulting to medium |
| QualityRoute.PeriodStart | app/api/quality/route.ts:12-26 | today gives midnight, week and month their cut-offs, anything else now; the period defaults to today |
| QualityRoute.Listing | app/api/quality/route.ts:29-43 | the listing is exactly the defects passing the filters, newest first |
| QualityRoute.TypeRows | app/api/quality/route.ts:87-98 | one row per type with its quantity; the percentage is absent iff the total is 0 |
| QualityRoute.Metric | app/api/quality/route.ts:46-84 | the metrics block; IssueCounts and RateGuards state its counts, costs and guards |
| QualityRoute.LineColor | app/api/quality/route.ts:101-110 | Ligne 1 and Ligne 2 get their own colours and every other line a third one |
| QualityRoute.LineRows | app/api/quality/route.ts:101-110 | one row per line with its quantity and colour |
| QualityRoute.SpcPoints | app/api/quality/route.ts:133-142 | one point per hour with its production and defect rate |
| QualityRoute.Get | app/api/quality/route.ts:8-170 | the report's listing, metrics, type and line rows and SPC chart derive from the defects in the period and the last day's production |
| QualityRoute.IssueCounts | app/api/quality/route.ts:71-80 | open plus closed issues stay within the number of defects and rework costs 50 per corrected record |
| QualityRoute.RateGuards | app/api/quality/route.ts:46-84 | first-pass yield equals conformity; no production gives defect rate 0; no defect gives conformity 100 |
| QualityRoute.TypeRowsSum | app/api/quality/route.ts:87-98 | the type rows carry the grouped quantities unchanged |
| QualityRoute.DefectsByType | app/api/quality/route.ts:87-98 | rows are sorted non-increasing, one per non-empty type, and sum to the typed defects' quantity |
| QualityRoute.DefectsByLine | app/api/quality/route.ts:101-110 | per-line quantities sum to the total, one entry per line |
| QualityRoute.HourlyBuckets | app/api/quality/route.ts:123-132 | the bucket counts sum to the number of points and the produced totals to total production |
| QualityRoute.BucketCountIsSize | app/api/quality/route.ts:123-132 | each bucket's count is the number of points in that hour |
| QualityRoute.FoldCount | app/api/quality/route.ts:123-132 | folding points into a bucket counts them |
| QualityRoute.Max0 | app/api/quality/route.ts:153-155 | the clamp is the larger of the value and 0 |
| QualityRoute.ChartLimits | app/api/quality/route.ts:145-156 | limits exist iff there are points; the lower limits are never negative; warning limits lie inside control limits |
| QualityRoute.Chart | app/api/quality/route.ts:145-156 | the SPC limits from the mean and standard deviation; ChartLimits states them |
| TeamsRoute.InsertByScoreSorted | app/api/teams/route.ts:45-48 | inserting into a list sorted by score keeps it sorted |
| TeamsRoute.InsertByScorePerm | app/api/teams/route.ts:45-48 | inserting adds exactly the one employee |
| TeamsRoute.SortByScoreProps | app/api/teams/route.ts:45-48 | the sort orders by non-increasing score, null as 0, and permutes its input |
| TeamsRoute.Performers | app/api/teams/route.ts:48-51 | one performer per employee with full name and score |
| TeamsRoute.Metric | app/api/teams/route.ts:29-51 | the metrics block; ShiftCounts, AveragesPresent and TopFive state its parts |
| TeamsRoute.TopPerformers | app/api/teams/route.ts:45-51 | the top-five list; TopFive states which employees it holds |
| TeamsRoute.ShiftRowOf | app/api/teams/route.ts:55-68 | one shift's row; ShiftRows states its count and the empty-shift averages |
| TeamsRoute.ShiftPerformance | app/api/teams/route.ts:55-68 | one row per shift in the fixed order |
| TeamsRoute.ListingIsActive | app/api/teams/route.ts:13-27 | only active employees are listed, and `all` or no shift lists all of them |
| TeamsRoute.Get | app/api/teams/route.ts:8-102 | the report of the active employees; ListingIsActive, TopFive, ShiftRows and AveragesPresent state its parts |
| TeamsRoute.ShiftCounts | app/api/teams/route.ts:35-40 | the three shift counts add up to at most the number of active employees |
| TeamsRoute.TopFive | app/api/teams/route.ts:45-51 | at most five performers, sorted, a sub-multiset of the active employees (nobody repeated), none outranked by someone left out |
| TeamsRoute.ShiftRows | app/api/teams/route.ts:55-68 | exactly MATIN, APRES_MIDI, NUIT with their counts; an empty shift reports averages of 0 |
| TeamsRoute.AveragesPresent | app/api/teams/route.ts:29-32 | averages exist iff there is an active employee (otherwise the source's NaN) |
| DashboardRoute.DowntimeColor | app/api/dashboard/current/route.ts:10-27 | case-insensitively, each pair of categories gets its colour and everything else grey |
| DashboardRoute.CategoriesAreColoured | app/api/dashboard/current/route.ts:10-27 | every category the MQTT service produces other than `other` gets a non-grey colour |
| DashboardRoute.Round | app/api/dashboard/current/route.ts:188-213 | rounding gives the integer within half a unit, ties upward |
| DashboardRoute.CurrentProduction | app/api/dashboard/current/route.ts:32-41 | none iff no row is from the last five minutes, otherwise the newest such row |
| DashboardRoute.ActiveAlerts | app/api/dashboard/current/route.ts:64-72 | the ten newest unresolved alerts: as many as exist up to ten, newest first, a sub-multiset of the unresolved alerts (none repeated), and no unresolved alert left out is newer than one kept |
| DashboardRoute.ActiveDowntime | app/api/dashboard/current/route.ts:97-104 | exactly the unresolved downtimes, newest first |
| DashboardRoute.QualityOf | app/api/dashboard/current/route.ts:153-161 | defect rate uses max(1, bottles), conformity is never negative, and no current production gives the fixed fallback |
| DashboardRoute.Events | app/api/dashboard/current/route.ts:177-187 | one event per active downtime, in order |
| DashboardRoute.EventOf | app/api/dashboard/current/route.ts:180-186 | an event copies its stop's reason, category and start; the duration is the stored one when truthy, else the floor of the minutes elapsed, never negative for a past start |
| DashboardRoute.TrsComponents | app/api/dashboard/current/route.ts:134-142 | three components in fixed order, with the snapshot's availability, performance and quality, else 95.2, 87.4 and 96.8 |
| DashboardRoute.HourRows | app/api/dashboard/current/route.ts:188-192 | one rounded row per hour, objective defaulting to 850 |
| DashboardRoute.ReasonRows | app/api/dashboard/current/route.ts:204-208 | one rounded row per reason with its colour |
| DashboardRoute.ShiftEfficiency | app/api/dashboard/current/route.ts:213 | efficiency is never 0 and is 90 when production is missing |
| DashboardRoute.ShiftRows | app/api/dashboard/current/route.ts:209-214 | one row per shift, TRS from the snapshot or 80 |
| DashboardRoute.Fallbacks | app/api/dashboard/current/route.ts:166-175 | TRS is the snapshot's, else 82.1 when running, else 0; objective is target × 60, else 2500 |
| DashboardRoute.ActiveCounts | app/api/dashboard/current/route.ts:64-72 | at most ten alerts are returned; active downtime (line 179) counts the unresolved rows |
| DashboardRoute.Get | app/api/dashboard/current/route.ts:29-239 | the dashboard payload; Fallbacks and ActiveCounts state its fallbacks and counts |
| DashboardRoute.Trs | app/api/dashboard/current/route.ts:166 | TRS from the snapshot, else 82.1 while running, else 0, as Fallbacks states |
| DashboardRoute.ProductionOf | app/api/dashboard/current/route.ts:168-175 | the production block with `||` fallbacks; Fallbacks states its objective |
| DashboardRoute.Post | app/api/dashboard/current/route.ts:242-263 | target defaults to 120, defects to 0 and running to true unless false |
| ExportUtils.ReportTypeName | lib/export-utils.ts:219-228 | the five report types map to their labels and any other input is returned unchanged |
| ExportUtils.ReportTypeNameKnown | lib/export-utils.ts:219-228 | the input comes back unchanged iff it is not one of the five types |
| ExportUtils.StatusLabel | lib/export-utils.ts:230-237 | good, warning and critical get labels; anything else, including none, gives `-` |
| ExportUtils.ReplaceFirstUnderscore | lib/export-utils.ts:131 | only the first underscore becomes a space (the same rule at line 203) |
| ExportUtils.LaterUnderscoresKept | lib/export-utils.ts:131 | underscores after the first are kept (the same rule at line 203) |
| ExportUtils.AlertLines | lib/export-utils.ts:130-134 | one line per alert, in order (the sheet rows at lines 202-206 likewise) |
| ExportUtils.AlertSelection | lib/export-utils.ts:120-135 | the alert section exists iff there are alerts and the PDF lists the first ten; the sheet at lines 201-208 lists all |
| ExportUtils.PdfAlerts | lib/export-utils.ts:120-135 | the PDF alert table; AlertSelection states which alerts it holds |
| ExportUtils.ExcelAlerts | lib/export-utils.ts:200-211 | the workbook's alert sheet; AlertSelection states which alerts it holds |
| ExportUtils.Sheets | lib/export-utils.ts:179-210 | the workbook starts with the KPI, production and downtime sheets and has an alert sheet iff there are alerts |
| ExportUtils.KpiStatuses | lib/export-utils.ts:50-53 | the KPI status column: the TRS status label, then `-` three times |
| ExportUtils.FileName | lib/export-utils.ts:162 | the file name starts with `rapport_` and ends with the extension after a dot (the same pattern at line 214) |

## Left out

- Rounding and formatting: `Math.round(x*10)/10`, `roundTo`, `toFixed` and locale time labels are not modelled. Ratios are exact reals; only the dashboard's integer `Math.round` is modelled.
- Password hashing (bcrypt) is a parameter of the user creation; session retrieval is an input.
- The database: queries are replaced by their results, which arrive as sequences, and SQL aggregates (`$queryRaw`) are inputs. A database failure (the 500 paths of the report routes) is not modelled.
- `ORDER BY` clauses that only order a listing (orders by priority and start time, maintenance tasks, teams by shift and name) are not modelled. The filtered sequence keeps input order.
- Timers, the network, MQTT subscriptions, child processes and SSE streams are not modelled. Their events are method calls, and a failing enqueue or spawn is a parameter.
- Clock-derived values are parameters: `Date.now`, local-midnight and calendar month or week arithmetic, `getHours` and `toISOString`. Daylight-saving effects are therefore not modelled.
- `Math.sqrt` in the SPC limits is a parameter.
- The parsing of query parameters (`parseInt` of non-numeric or negative text) is not modelled. Period and limit arrive as optional naturals.
- The extraction of JSON objects from a test process's standard output (regex and `JSON.parse`) is not modelled.
- PDF and Excel rendering (layout, page breaks, columns other than the alert rows) is not modelled.
- Pass-through fields of the POST routes (descriptions, comments, free-text fields) are not modelled.
- The energy route, the seed script, the listener script, sign-out and the React UI are not modelled.
- `getReportTypeName` is modelled without JavaScript's inherited object keys such as `constructor`.
- Group-by dictionaries (DowntimeRoute.ReasonMinutes, QualityRoute.DefectsByType, QualityRoute.DefectsByLine, SafetyRoute.LocationRows, OrdersRoute.MixRows, OrdersRoute.LineRows) keep keys in first-insertion order; JavaScript lists integer-like keys such as "12" first, in ascending numeric order, and that reordering is not modelled.
- Group-by folds of the form `(acc[k] || 0) + x` over a plain object literal, and ExportUtils.StatusLabel's table lookup, are modelled without inherited keys: a key such as `constructor` starts from an inherited function in the source and from the fold's initial value in the model.
- CategorizeDowntime, DowntimeColor and ThresholdAlert: case folding (Common.ToLower) covers ASCII and the Latin-1 capitals only; JavaScript's `toLowerCase` folds every Unicode capital (for example the Kelvin sign to `k`), which the model does not.
- The dashboard's `equipmentStatus` block (name, status, efficiency, and last maintenance date or 'N/A') is object construction from fetched rows and is not modelled.
- The dashboard POST with a missing `bottlesProduced` fails in the database and is not modelled.
- OrdersRoute.Performance: the source divides by `targetRate` unguarded, so a target rate of 0 gives `Infinity`; the model uses 0 there.
