# Verified model of the Trusyn AI runtime backend

A Dafny 4.11 project that models the runtime core of the Python backend and proves properties of
its behaviour over whole runs. `dafny verify dfyconfig.toml` checks all of it.

Five parts are modelled.

* **The trust loop** (`RiskEngine`, `DecisionEngine`, `BehaviorEngine`, `AnomalyDetector`,
  `TrustEngine`, `IntelligenceOrchestrator`, `TrustLoop`, `SignalEffects`, `TrustEffects`): an
  agent's trust feeds its risk score, risk feeds the decision, both are stored, and the stored
  history feeds the anomaly score that changes trust. The history is kept newest first, as the query
  returns it, so the drift baseline (the last twenty list items) is the oldest part of the window.
* **The realtime path** (`Channels`, `GatewayEvents`, `WsManager`, `EventBus`, `StreamManager`,
  `TenantRouting`, `EventDelivery`, `GatewayDelivery`): every lock section, and every stretch
  without a suspension point, is one atomic step, and the theorems range over all interleavings of
  these steps. `TenantRouting` runs publishers, bus, retention, manager and history together.
* **Limiters and breaker** (`RateLimit`, `GeminiService`, `Resilience`): time is an input of every
  step; traces have a clock that never runs backwards where a theorem says so.
* **The two-tier cache and the policy cache** (`CacheService`, `PolicyCache`): each Redis call is
  answered, never reaches the server, or is carried out without the caller learning of it.
* **Policy evaluation** (`PolicyEngine`, `PolicyOperators`, `GovernanceEngine`, `PolicyLoop`): the
  rule language over JSON with its error cases, and the meaning of each of its operators. Library
  conversions (`str`, `lower`, `float`, pattern search) are parameters.

Objects the backend updates in place are classes whose methods are proved against step functions;
the run theorems are about those functions. History variables (what was accepted, when a list was
read, when a value was set) exist for the specifications only.

Some results are sharper than one might expect from the code. Recovery takes twenty clean requests
in the worst case, not more. The fixed-window limiter really does admit twice its limit across a
window boundary, and one less when one end point of the interval does not count. The sliding log
keeps its limit in half-open windows and can double it in a closed one. The advertised
`retry_after` is rounded down and can be one second short. The websocket limits are kept exactly
when connects do not overlap. A bus restarted while its last stop still waits runs on without a
queue and drops everything; that no stop is waiting when `start` is called is exactly what rules
this out. A super admin who acts on another organization's agent is judged on an
empty history, and the audit and intelligence events go to the admin's organization. A policy list
can outlive the commit that replaced it, by at most its time to live plus the rest of its fill,
because the key is dropped before the commit; whether a fill can lead to that is decided exactly by
what the gateway could see when it fills.

## Model

| member | source | states |
|---|---|---|
| TrustLoop.RunsKeepOrder | backend/app/intelligence/intelligence_orchestrator.py:65-110 | Two runs over the same requests, the second starting with trust no higher and a history no better: at every step its trust is no higher, its risk and anomaly scores are no lower, its trust change is no better, and it blocks or quarantines whenever the other does. Proved by a simulation that relates trust and the stored rows pointwise. |
| TrustLoop.StepBelow | backend/app/engine/orchestration.py:150-230 | One request keeps that simulation: risk, decision, stored row, anomaly and trust change stay ordered. |
| TrustLoop.TrustRecovers | backend/app/intelligence/trust_engine.py:32-55 | From any trust in 0..100 and an empty history, twenty clean requests restore trust 100, and any number of further clean requests, at any speed, keep it there. |
| TrustLoop.RecoveryFromZero | backend/app/intelligence/trust_engine.py:35-53 | Twenty is the exact worst case: from trust 0, nineteen clean requests reach 98 and twenty reach 100, whatever their timestamps. |
| TrustLoop.RecoveryIsExact | backend/app/intelligence/trust_engine.py:32-55 | While fewer than forty clean requests are stored, trust after n of them has a closed form: gains of 4 up to the threshold of 29, then gains of 6 up to 100. Full trust is reached if and only if n is at least RequestsToFull of the starting trust, which is at most 20. |
| TrustLoop.RecoveredIsIterated | backend/app/intelligence/trust_engine.py:35-53 | The closed form is the iteration of the single clean gain, for every starting trust and count. |
| TrustLoop.CleanRunNeverLowersTrust | backend/app/intelligence/anomaly_detector.py:24-57 | On a clean history of any length, clean requests are all allowed and none of them lowers trust. |
| TrustLoop.SpikeIsFlaggedButHarmless | backend/app/intelligence/behavior_engine.py:66-73 | From the fortieth clean request within the hour, made by an actor of the agent's organization, the anomaly score is exactly 35, which counts as anomalous, and the trust change is still 2 or 0, never negative. |
| TrustLoop.CleanStep | backend/app/engine/risk_engine.py:48-74 | A clean request has no risk but the trust penalty, is allowed, and gains 6 points from trust 29 on and 4 below as long as the request spike is not reached. |
| TrustLoop.TrustDecays | backend/app/engine/decision_engine.py:35-47 | While the agent is BLOCKED or QUARANTINED, trust after n requests is at most max(0, t0 - 8n). |
| TrustLoop.TrustStaysInRange | backend/app/intelligence/trust_engine.py:55-55 | In every run trust stays in 0..100, falls by at most 40 and rises by at most 6 per request. |
| PolicyLoop.TraceIgnoresMatchOrder | backend/app/engine/decision_engine.py:49-55 | Two runs whose requests differ only in the order of the matched policies have the same trace of risks, decisions, anomalies and trust. |
| PolicyLoop.StepIgnoresPolicyCaching | backend/app/engine/orchestration.py:150-160 | The loop step is the governance execution, and it is the same whether policies are evaluated as stored or as cached dictionaries in any order. |
| TrustEffects.MatchEffect | backend/app/intelligence/trust_engine.py:32-55 | On an otherwise clean request of a trusted agent with a quiet history, k matched policies of one action change trust by: ALLOW +4, +2, then -2k up to -12; REVIEW and RATE_LIMIT 0, -2, then the same; BLOCK and QUARANTINE 10 less. |
| TrustEffects.FindingEffect | backend/app/intelligence/trust_engine.py:32-53 | The same for findings alone: -18 with a critical one, 0 when the worst is high or medium, +6 when all are low, up to 100. |
| TrustEffects.RiskEffect | backend/app/intelligence/trust_engine.py:35-53 | Without match and anomaly an agent that is not stopped gains 6 up to risk 25 and 4 up to 34, and loses nothing up to 79, 8 up to 84 and 18 above. |
| TrustEffects.StoppedEffect | backend/app/intelligence/trust_engine.py:32-34 | A stopped agent loses 8 up to risk 25, 10 up to 79 and 18 above. |
| TrustEffects.AnomalyEffect | backend/app/intelligence/trust_engine.py:39-42 | Histories of agents with equal trust differ in the effect of one request by the anomaly penalty alone: 4 points from score 35, 5 from 50, and so on up to 10 at 100. |
| TrustEffects.ViolationsErode | backend/app/intelligence/trust_engine.py:44-55 | In a run of requests with six or more ALLOW matches each, every request is allowed and takes 12 points: trust after n of them is max(0, t - 12n). |
| TrustEngine.UpdateTrust | backend/app/intelligence/trust_engine.py:20-68 | The step-by-step update yields the clamped sum of the decision, anomaly, violation and risk contributions; the trend is increasing from +2 and decreasing from -2. |
| AnomalyDetector.Detect | backend/app/intelligence/anomaly_detector.py:20-57 | The score is the capped sum of its six signals; the kinds begin at 35, 55 and 75, anomalous means 35 or more, and the confidence is 65 and 7 more for each of four signals. |
| SignalEffects.AnomalyFromSignals | backend/app/intelligence/anomaly_detector.py:24-40 | From a loaded history and a request the score is, up to 100, the points of six signals, with the interaction of repeated blocks, external sources and the request spike written out. |
| BehaviorEngine.Analyze | backend/app/intelligence/behavior_engine.py:22-87 | The loop counts exactly the rows of the last hour, the stopped ones and the external ones, and scores drift over the last twenty list items, which are the oldest of the newest-first window. |
| SignalEffects.ProfileCounts | backend/app/intelligence/behavior_engine.py:39-58 | The counts are the numbers of items of the last 3600 seconds, of those decided BLOCK or QUARANTINE, and of those whose source mentions "external" in any case, the current source included. |
| SignalEffects.ProfileInPoints | backend/app/intelligence/behavior_engine.py:59-86 | The suspicion score is 25 for three stopped rows, 25 for four external ones and 30 for forty requests; the drift score is 25 for a baseline of 60 points or more and 20 for an external source in production. |
| RiskEngine.Assess | backend/app/engine/risk_engine.py:28-96 | The score is the clamped sum of the greatest finding weight, policy, trust, metadata and Gemini signals; severity and confidence follow from it and stay in range. |
| SignalEffects.RiskInPoints | backend/app/engine/risk_engine.py:39-74 | The score in points: the worst finding 20, 45, 70 or 90; matches 12, 24, 35; half of the trust missing to 80, up to 30; production 8; external source 6; Gemini level 4, 10, 18 or 25, in any case; all together up to 100. |
| SignalEffects.SeverityInPoints | backend/app/engine/risk_engine.py:82-89 | Severity is critical from 85, high from 65 and medium from 40. |
| SignalEffects.ConfidenceInPoints | backend/app/engine/risk_engine.py:76-80 | Confidence is 60 and 7 for each finding or match up to 95, and with a Gemini level 5 more up to 98. |
| RiskEngine.RiskAntitoneInTrust | backend/app/engine/risk_engine.py:48-51 | Lower trust never lowers the score, whatever the other signals are. |
| DecisionEngine.CriticalFindingBlocked | backend/app/engine/decision_engine.py:35-63 | On an agent that is not blocked or quarantined, a critical finding is blocked if and only if no policy matched or some matching policy says BLOCK. |
| DecisionEngine.DecisionIgnoresMatchOrder | backend/app/engine/decision_engine.py:49-55 | The chosen action has maximal precedence and does not depend on the order of the matches. |
| SignalEffects.DecisionInPoints | backend/app/engine/decision_engine.py:35-80 | A stopped agent gets its own decision; otherwise matches decide by the order BLOCK, QUARANTINE, RATE_LIMIT, REVIEW, ALLOW; without matches BLOCK from 85, REVIEW from 65, RATE_LIMIT from 45; each with its own reason. |
| DecisionEngine.FindingSetsFloor | backend/app/engine/risk_engine.py:39-42 | Without overrides a CRITICAL finding is blocked, a HIGH one at least reviewed and a MEDIUM one never simply allowed, whatever the other signals. |
| DecisionEngine.NoFindingNeverBlocked | backend/app/engine/risk_engine.py:48-74 | Trust, metadata and the Gemini signal together reach 69 at most, so without finding and policy match an operational agent is never blocked. |
| DecisionEngine.Strongest | backend/app/engine/decision_engine.py:50-50 | The picked match is one of the matches and none has greater precedence. |
| DecisionEngine.StrongestComesFirst | backend/app/engine/decision_engine.py:50-55 | Among several matches with the strongest action the first one is picked, and named in the reason. |
| IntelligenceOrchestrator.GovernedAgent.Process | backend/app/intelligence/intelligence_orchestrator.py:52-111 | One gateway request, run through the five engines in the order of the source, changes trust and history exactly as the loop step says. |
| IntelligenceOrchestrator.GovernedAgent.LoadRecentActivity | backend/app/intelligence/intelligence_orchestrator.py:231-252 | The loaded list is the first sixty rows of the newest-first history, in order, when the actor belongs to the agent's organization, and empty for a super admin of another one. |
| IntelligenceOrchestrator.ForeignActorSeesNoHistory | backend/app/intelligence/intelligence_orchestrator.py:65-65 | A request by a super admin of another organization is judged without any history: risk, decision, anomaly and trust change depend on the current trust alone. |
| IntelligenceOrchestrator.HistoryIsComplete | backend/app/engine/orchestration.py:194-229 | After any run the stored rows are, as a multiset, the old rows and one row per request holding that request's decision, risk, source and time, and they are newest first whatever the order of the timestamps. |
| IntelligenceOrchestrator.WindowHoldsTheNewest | backend/app/intelligence/intelligence_orchestrator.py:236-237 | No row left out of the sixty-row window is newer than any row in it. |
| IntelligenceOrchestrator.InsertRowContents | backend/app/engine/orchestration.py:220-229 | Storing a decision adds that one row and changes no other. |
| RateLimit.AtMostTwiceTheLimit | backend/app/middleware/rate_limit.py:36-56 | In every trace of hits and cleanups with a clock that never runs backwards, a closed interval of one window length admits at most twice the limit on a key. |
| RateLimit.TwiceTheLimitIsReached | backend/app/middleware/rate_limit.py:40-49 | For every window and limit there is a trace that admits exactly twice the limit in one such interval, so the bound cannot be improved. |
| RateLimit.BucketAdmitsAtMostLimit | backend/app/middleware/rate_limit.py:44-49 | While a bucket is live it admits at most what is left of the limit. |
| RateLimit.AdmittedWithinRoom | backend/app/middleware/rate_limit.py:36-56 | What a trace admits up to a deadline never exceeds the room seen at its start. |
| RateLimit.CleanupIsInvisible | backend/app/middleware/rate_limit.py:51-56 | Two traces that differ only in where cleanups happen give the same verdict and the same retry_after on every hit. |
| RateLimit.RetryAfterIsHonest | backend/app/middleware/rate_limit.py:45-45 | A refused client that waits the advertised retry_after is admitted if and only if the rest of the window was whole or at most one second; one second more always suffices. |
| RateLimit.RetryAfterFallsShort | backend/app/middleware/rate_limit.py:45-45 | It does fall short on a table the limiter reaches: after one hit at 0.0 under a limit of one and a window of 60, a client refused at 58.5 is told to wait one second and is refused again at 59.5. |
| RateLimit.HalfOpenBound | backend/app/middleware/rate_limit.py:36-56 | A half-open interval of one window length admits at most max(0, 2 * limit - 1) hits on a key, in every timely trace whose hits on the key carry limits from one up to the limit. |
| RateLimit.HalfOpenBoundIsReached | backend/app/middleware/rate_limit.py:40-49 | For every window and every limit of at least one a trace with that one limit reaches 2 * limit - 1. |
| RateLimit.ChargeMeaning | backend/app/middleware/rate_limit.py:79-96 | A request passes if and only if each of its keys on its own admits it at the clock reading of that key's hit; otherwise it gets the first refusing key's verdict. |
| RateLimit.ChargeEffect | backend/app/middleware/rate_limit.py:140-145 | The keys up to and including the refusing one are hit once each at their own clock readings, even when the request is refused; the later ones keep their buckets. |
| RateLimit.ChargeLeavesOtherKeys | backend/app/middleware/rate_limit.py:79-80 | A key the request is not charged under keeps its bucket. |
| RateLimit.RequestKeys | backend/app/middleware/rate_limit.py:72-76 | A request is charged under one to three distinct keys. |
| RateLimit.InMemoryRateLimiter.HitKey | backend/app/middleware/rate_limit.py:36-49 | The verdict and the new bucket table of one hit. |
| RateLimit.InMemoryRateLimiter.CleanupExpired | backend/app/middleware/rate_limit.py:51-56 | Exactly the expired buckets are removed. |
| RateLimit.InMemoryRateLimiter.HitKeys | backend/app/middleware/rate_limit.py:78-96 | The key loop charges keys in order, each at its own clock reading, and stops at the first refusal. |
| GeminiService.AtMostLimitPerWindow | backend/app/services/gemini_service.py:79-88 | Any half-open interval of one window length holds at most the configured number of admitted calls. |
| GeminiService.ClosedWindowBound | backend/app/services/gemini_service.py:83-83 | A closed interval of one window length holds at most the limit plus the admissions at its first instant, at most the limit plus those at its last instant, and at most twice the limit: it exceeds the limit only through admissions exactly one window apart. |
| GeminiService.ClosedWindowsKeepLimitIff | backend/app/services/gemini_service.py:83-85 | Every closed interval of one window length keeps the limit if and only if no two admissions that are limit places apart lie exactly one window apart. |
| GeminiService.WellAdmittedIffSpaced | backend/app/services/gemini_service.py:83-88 | For a positive window, what the log can admit are exactly the ascending histories whose admissions limit places apart are at least a window apart. |
| GeminiService.WellAdmittedIsAdmitted | backend/app/services/gemini_service.py:79-88 | Conversely every such history is admitted whole when its calls are made at those times. |
| GeminiService.TwoBurstsFillAClosedWindow | backend/app/services/gemini_service.py:79-88 | Checks at the start of a window and exactly one window later are all admitted, so for every window and limit a closed interval does hold twice the limit. |
| GeminiService.CheckKeepsInvariant | backend/app/services/gemini_service.py:83-88 | With a positive window the deque always equals the full admission history filtered to the last window; with any window a call is admitted if and only if fewer than the limit were admitted in the window ending now. |
| GeminiService.PurgeIsFilter | backend/app/services/gemini_service.py:83-84 | Purging from the front only is the same as filtering the whole log. |
| GeminiService.SlidingLog.CheckRateLimit | backend/app/services/gemini_service.py:79-88 | The purge loop and the append, on the mutable deque, keep that invariant. |
| GeminiService.EveryCallRecordsOneOutcome | backend/app/services/gemini_service.py:48-77 | In every interleaving of guarded calls, started calls = recorded outcomes + cancelled + still running, the breaker state is the function of the recorded outcomes, every half-open window holds at most the call limit of started calls, and every closed one at most twice the limit. |
| GeminiService.FinishRecords | backend/app/services/gemini_service.py:66-77 | A call whose first settling attempt returns records exactly a success, one that raises on every attempt exactly a failure at its end, and one that is cut short nothing. |
| GeminiService.OutcomesAreResults | backend/app/services/gemini_service.py:66-77 | In every run the outcome history is, in order, the results of the calls that finished. |
| GeminiService.BreakerFollowsCalls | backend/app/services/gemini_service.py:48-77 | In every run the breaker is open if and only if the last threshold finished calls all raised on every attempt and the recovery time since the last one has not passed. |
| GeminiService.ReturningCallsKeepBreakerClosed | backend/app/services/gemini_service.py:72-72 | A run in which every finished call returns or is cut short never opens the breaker. |
| GeminiService.StartsExactlyWhenAllowed | backend/app/services/gemini_service.py:195-201 | A call starts if and only if the service is configured, the trailing failures do not hold the breaker open, and the window has room. |
| Resilience.StateFollowsHistory | backend/app/utils/resilience.py:48-60 | failure_count is the trailing run of failures, and the breaker is open at t if and only if that run reaches the threshold and t is before the last failure plus recovery. |
| Resilience.CircuitBreaker.IsOpen | backend/app/utils/resilience.py:48-51 | The answer is determined by the outcome history alone. |
| Resilience.CircuitBreaker.RecordFailure | backend/app/utils/resilience.py:57-60 | Recording extends the history by one failure and keeps the state its function. |
| Resilience.CircuitBreaker.RecordSuccess | backend/app/utils/resilience.py:53-55 | Recording extends the history by one success and keeps the state its function. |
| Resilience.AsyncRetry | backend/app/utils/resilience.py:12-32 | Returns the first value, re-raises an uncaught exception at once, ends with the cancellation of a pause, or raises the last error after all attempts; the number of calls and the total of the completed pauses are stated. |
| Resilience.LastCall | backend/app/utils/resilience.py:23-31 | The last call made is the first one that does not raise a caught exception, the first one whose pause is cancelled, or the last one allowed. |
| Resilience.TotalSleepIsGeometric | backend/app/utils/resilience.py:30-31 | After n doubling pauses the total pause is d * (2^n - 1). |
| Channels.OrgChannelsAreDisjoint | backend/app/ws/channels.py:15-32 | A channel name belongs to at most one organization. |
| Channels.GlobalChannelsBelongToNobody | backend/app/ws/channels.py:8-12 | No global channel has the name of an organization channel. |
| Channels.RoutingSoundIffOwnChannel | backend/app/ws/channels.py:35-69 | Routing keeps an event within its organization if and only if the channel put on it is not an organization channel of somebody else. |
| Channels.ChannelsForEvent | backend/app/ws/channels.py:35-69 | The case-by-case accumulation yields exactly the routed channel set. |
| Channels.ThreatChannelGets | backend/app/ws/channels.py:41-44 | An organization's threat channel gets exactly its threats and policy violations, and what is put on it directly. |
| Channels.GovernanceChannelGets | backend/app/ws/channels.py:46-54 | Its governance channel gets exactly its requests, risk scores, decisions and policy violations, and what is put on it directly. |
| Channels.IntelligenceChannelGets | backend/app/ws/channels.py:59-67 | Its intelligence channel gets exactly its anomalies, trust changes, correlations and recommendations, and what is put on it directly. |
| Channels.PlatformChannelGets | backend/app/ws/channels.py:36-39 | Its platform channel gets exactly all of its events, and what is put on it directly. |
| Channels.GlobalChannelsGet | backend/app/ws/channels.py:36-65 | The global channels get the same kinds of events from everybody, and system.health.global the health events. |
| Channels.PublishersRouteSoundly | backend/app/events/publishers.py:36-333 | Every publisher's event stays within its organization and reaches an organization's platform channel if and only if it is that organization's event. |
| Channels.TypeTellsPublisher | backend/app/events/publishers.py:36-333 | Each publisher gives its events a type of their own. |
| Channels.PublisherChannelIsDerived | backend/app/events/publishers.py:36-333 | The channel a publisher writes on its event is one routing would derive anyway. |
| GatewayEvents.AllUnderAgentIffShared | backend/app/engine/orchestration.py:93-304 | All events of one gateway request, whether or not its evaluation raises, carry the agent's organization if and only if the actor belongs to it. |
| GatewayEvents.EventOrganization | backend/app/intelligence/intelligence_orchestrator.py:180-215 | Audit and intelligence events carry the actor's organization, all other events of the request the agent's. |
| GatewayEvents.OrdinaryActorsStayInOrg | backend/app/engine/orchestration.py:93-94 | An actor that is no super admin and passes the tenant check publishes under the agent's organization only. |
| GatewayEvents.ForeignActorRedirectsEvents | backend/app/services/audit_service.py:50-68 | When a super admin of another organization acts, the audit and intelligence events about the agent reach no channel of the agent's organization and do reach the admin's. |
| GatewayEvents.ProcessRuntimeRequest | backend/app/engine/orchestration.py:93-304 | The publishing calls of one request in order: none after a refused tenant check, the first two when the evaluation raises, otherwise the listed events with one per threat and per violation. |
| GatewayEvents.AnsweredPublishes | backend/app/engine/orchestration.py:93-304 | An answered request publishes, as a multiset, the eight events every request has, one event per finding and per violated policy, and a correlation event when there is one, each under the organization of the agent or of the actor. |
| GatewayDelivery.OwnersOnlyIffActorsShareOrg | backend/app/engine/orchestration.py:93-304 | End to end: in every run of the realtime path fed by gateway requests, ordinary principals are sent events about their own organization's agents only, if and only if every acting user belongs to the agent's organization. |
| GatewayDelivery.RunKeepsUnderAgent | backend/app/api/routes/ws.py:75-193 | When the actors share the organization, every event queued, in hand, retained, addressed or delivered carries the organization of its agent. |
| GatewayDelivery.AuditEventIsDelivered | backend/app/services/audit_service.py:41-48 | For every organization and limits that admit one connection there is a run in which an ordinary member is sent the audit event of a request its organization's admin makes on any agent. |
| EventDelivery.MembersHear | backend/app/api/routes/ws.py:143-193 | End to end, for every publisher and every route: some run sends its event to a member of an organization on the platform, threats, governance or intelligence route if and only if it is an event of that organization and of the kinds listed for that route. |
| EventDelivery.SuperAdminsHear | backend/app/api/routes/ws.py:143-193 | The same for a super admin: everybody's events of the listed kinds, and on the platform route all events. |
| EventDelivery.OrganizationRouteHears | backend/app/api/routes/ws.py:150-163 | The organization route can send all events of that organization and no others. |
| EventDelivery.SentIffRouted | backend/app/events/publishers.py:36-333 | A publisher's event can be sent to a route's client if and only if some channel of the route gets it. |
| EventDelivery.OnlyAllowedIsSent | backend/app/api/routes/ws.py:75-140 | In every run, whatever a connection is sent, live or as history, is routed to a channel its route allows it. |
| EventDelivery.ListenerIsSent | backend/app/ws/manager.py:151-171 | For every event and every channel it is routed to, a run sends it live to a listener on that channel. |
| EventDelivery.ListenerIsSentHistory | backend/app/api/routes/ws.py:114-119 | And a run without any broadcast sends it as history, when at least one event is retained. |
| WsManager.IndexIsAlwaysConsistent | backend/app/ws/manager.py:54-149 | In every interleaving of connect, disconnect, subscribe, unsubscribe, idle cleanup and stop, the member sets are exactly the inverse of the live subscriptions, none is empty, no member is dead, and no connection exceeds its cap. |
| WsManager.GlobalCapHolds | backend/app/ws/manager.py:74-93 | If at most P connects are ever between check and insert, live plus pending connections never exceed limit - 1 + P. |
| WsManager.GlobalOvershootIsReached | backend/app/ws/manager.py:74-93 | For all limits and every P of at least one there is a run with at most P such connects that ends with exactly limit - 1 + P live connections. |
| WsManager.GlobalLimitKeptIffNoOverlap | backend/app/ws/manager.py:76-78 | With limits of at least one, every run with at most P overlapping connects keeps the global limit if and only if P is at most one. |
| WsManager.OrgCapHolds | backend/app/ws/manager.py:80-85 | For each organization and its own overlapping connects, live plus pending never exceed the smaller of the two limits - 1 + P. |
| WsManager.OrgOvershootIsReached | backend/app/ws/manager.py:80-93 | For all limits and every P of at least one and every organization, a run reaches that bound with live connections. |
| WsManager.OrgLimitKeptIffNoOverlap | backend/app/ws/manager.py:80-85 | Every run with at most P overlapping connects of an organization keeps its limit if and only if P is at most one plus what the organization limit exceeds the global one by. |
| WsManager.ConnectionOrigin | backend/app/ws/manager.py:87-93 | A live connection's principal never changes and its subscriptions come only from its admission or a subscribe step. |
| WsManager.WebSocketManager.ConnectCheck | backend/app/ws/manager.py:75-85 | The first lock section accepts if and only if both limits have room. |
| WsManager.WebSocketManager.ConnectInsert | backend/app/ws/manager.py:90-93 | The second lock section registers the connection and links its first channels. |
| WsManager.WebSocketManager.Disconnect | backend/app/ws/manager.py:108-118 | Unlinking only the connection's own channels removes it from every member set, and emptied sets disappear. |
| WsManager.WebSocketManager.SubscribeTo | backend/app/ws/manager.py:127-136 | Refuses unknown and full connections, otherwise links both dictionaries. |
| WsManager.WebSocketManager.UnsubscribeFrom | backend/app/ws/manager.py:138-149 | Unlinks both dictionaries. |
| WsManager.SubscribingJoins | backend/app/ws/manager.py:127-136 | A subscribe step by a connection with room adds it to that channel's members and to no other's, and counts as activity. |
| WsManager.FullConnectionIsRefused | backend/app/ws/manager.py:129-133 | At the cap a subscribe step changes nothing. |
| WsManager.UnsubscribingLeaves | backend/app/ws/manager.py:138-149 | An unsubscribe step removes the connection from that channel's members only, and counts as activity. |
| WsManager.ActivityIsSeen | backend/app/ws/manager.py:121-125 | Activity changes the time of that connection and nothing else. |
| WsManager.StoppingDropsAll | backend/app/ws/manager.py:65-68 | A stop empties both dictionaries; a connect that waits for its handshake is still pending. |
| WsManager.AbortForgets | backend/app/ws/manager.py:87-93 | A failed handshake leaves nothing behind. |
| WsManager.WebSocketManager.BroadcastTargets | backend/app/ws/manager.py:151-156 | The snapshot is exactly the live connections subscribed to the channel. |
| WsManager.WebSocketManager.StaleConnections | backend/app/ws/manager.py:182-187 | The snapshot is exactly the connections idle since the threshold. |
| WsManager.WebSocketManager.CleanupIdleConnections | backend/app/ws/manager.py:180-189 | Uninterrupted, the cleanup drops exactly its snapshot, and the index stays consistent. |
| WsManager.CleanupClosesItsSnapshot | backend/app/ws/manager.py:188-189 | Whatever other steps fall between the closes, a connection of the snapshot whose close has come is gone for good, even if it became active after the snapshot. |
| WsManager.CleanupSparesTheRest | backend/app/ws/manager.py:182-189 | And no other live connection is lost, unless somebody else closes it or the manager stops. |
| WsManager.WebSocketManager.Stop | backend/app/ws/manager.py:65-68 | Both dictionaries end empty. |
| EventBus.BusConservesEvents | backend/app/events/event_bus.py:45-99 | In every run of starts, stops, publishes and dispatches in any order: what the session accepted = dispatched + in hand + queued, in that order; published = accepted + dropped; the queue never exceeds a positive size. |
| EventBus.SubscriberSeesEverything | backend/app/events/event_bus.py:101-117 | A subscriber that stays registered receives every dispatched event of its scope exactly once and in acceptance order, whatever the others do and however often its callback is replaced. |
| EventBus.OrderlyBusStaysHealthy | backend/app/events/event_bus.py:53-63 | When no start overtakes a stop that still waits for its worker, a running bus always has its queue and its worker. |
| EventBus.ServesIffNoStopWaits | backend/app/events/event_bus.py:53-63 | A running bus with its queue and its worker keeps both until the next stop, whatever happens, if and only if no earlier stop still waits for its worker. |
| EventBus.StartServesIffNoStopWaits | backend/app/events/event_bus.py:45-51 | So a start leads to a bus that serves until it is stopped if and only if no stop is waiting when it is called. |
| EventBus.ServingMeansDispatching | backend/app/events/event_bus.py:81-99 | An idle bus counts as serving exactly when an event published now is queued, taken and dispatched. |
| EventBus.EarlyRestartDetachesTheBus | backend/app/events/event_bus.py:60-63 | An instance: a start that overtakes a stop ends as a running bus whose queue the stop has taken away. |
| EventBus.DetachedBusAcceptsNothing | backend/app/events/event_bus.py:85-86 | Such a bus drops everything published until it is stopped. |
| EventBus.PublishDropsIffNoRoom | backend/app/events/event_bus.py:87-90 | On a running bus with its queue an event is dropped if and only if a positive size is used up, and otherwise queued last. |
| EventBus.FreshBusQueuesTheFirst | backend/app/events/event_bus.py:48-48 | On a freshly started bus a burst with no take in between leaves exactly its first size events queued in order, or all of them without a bound. |
| EventBus.BurstIsQueued | backend/app/events/event_bus.py:81-90 | The same for any queue: exactly as many of the first events as fit, and the others are counted as dropped. |
| EventBus.PublishWithoutQueueDrops | backend/app/events/event_bus.py:82-86 | A bus that is stopped or has lost its queue drops what is published. |
| EventBus.EventBus.PublishEvent | backend/app/events/event_bus.py:81-90 | Enqueues at the end when the bus runs, has its queue, and the size is not used up; drops otherwise. |
| EventBus.EventBus.WorkerAwait | backend/app/events/event_bus.py:93-97 | The worker turns to the queue the bus holds, and polls while there is none. |
| EventBus.EventBus.WorkerTake | backend/app/events/event_bus.py:97-98 | A worker that waits on its queue takes the oldest event, also when the bus has let go of that queue meanwhile. |
| EventBus.EventBus.StartBus | backend/app/events/event_bus.py:45-51 | A new session starts with an empty queue and a new worker, also while an older stop still waits; starting twice changes nothing. |
| EventBus.EventBus.WorkerDone | backend/app/events/event_bus.py:97-99 | Ends a dispatch; the worker turns to the queue again, or dies when the queue is gone. |
| EventBus.WorkerRound | backend/app/events/event_bus.py:93-99 | One round of a waiting worker: the oldest event is handed to its subscribers and counted as dispatched, and the worker waits again exactly when the bus still has its queue. |
| EventBus.WorkerStandsStill | backend/app/events/event_bus.py:92-99 | No worker step changes a bus that is stopped, a worker that is not waiting takes nothing, and one with an event in hand takes no second. |
| EventBus.WorkerLooksFirst | backend/app/events/event_bus.py:93-98 | A new worker has to look at the bus before it takes anything. |
| EventBus.LookingMeansWaiting | backend/app/events/event_bus.py:94-97 | Once it has looked it waits on the queue, or goes on polling while there is none. |
| EventBus.StopWaitsForTheWorker | backend/app/events/event_bus.py:53-63 | A stop waits for a living worker and for nobody otherwise. |
| EventBus.EventBus.FinishStop | backend/app/events/event_bus.py:59-63 | The end of a stop takes away whatever queue the bus holds by then. |
| EventBus.EventBus.RequestStop | backend/app/events/event_bus.py:53-62 | Stopping refuses further events and ends dispatching. |
| EventBus.EventBus.SubscribeTo | backend/app/events/event_bus.py:66-74 | A name is registered once per scope; registering it again replaces its callback. |
| EventBus.PutKeepsPlaces | backend/app/events/event_bus.py:73-73 | A known name keeps its place and gets the new callback there, every other registration is unchanged, and a new name comes last. |
| EventBus.EventBus.UnsubscribeFrom | backend/app/events/event_bus.py:76-79 | Only the named registration is removed. |
| StreamManager.RetentionRefinesHistory | backend/app/events/stream_manager.py:17-22 | Each channel's stream is the last retention_limit stored events routed to it. |
| StreamManager.GlobalStreamRefinesHistory | backend/app/events/stream_manager.py:18-18 | The global stream is the last retention_limit of all stored events. |
| StreamManager.RecentIsSuffixOfHistory | backend/app/events/stream_manager.py:27-29 | With a limit of at least one, a history read is the last min(limit, retention_limit) routed events, in order. |
| StreamManager.ParseHistoryLimit | backend/app/api/routes/ws.py:33-38 | An absent limit or one that is no number means 20; any other is raised to 1 or cut to 200. |
| StreamManager.EventStreamManager.AppendEvent | backend/app/events/stream_manager.py:17-22 | The loop over the channels pushes the event onto each bounded stream. |
| StreamManager.EventStreamManager.RecentForChannel | backend/app/events/stream_manager.py:27-29 | Reads the end slice of one stream. |
| TenantRouting.NoCrossTenantDelivery | backend/app/api/routes/ws.py:75-193 | In every run of connects, subscribes, publishes, dispatches, broadcasts and history requests, whatever is put on the socket of a principal that is not a super admin is an event of its own organization. |
| TenantRouting.RunIsSound | backend/app/api/routes/ws.py:134-140 | The invariant behind it, kept by every step of every component in any interleaving. |
| TenantRouting.BroadcastAddressesSubscribers | backend/app/ws/manager.py:165-171 | A broadcast addresses every live connection subscribed to the channel at that moment, and nobody else. |
| TenantRouting.StoppedManagerAddressesNobody | backend/app/ws/manager.py:65-68 | Once the manager is stopped a broadcast addresses nobody. |
| TenantRouting.RoutesAllowOwnChannelsOnly | backend/app/api/routes/ws.py:143-193 | What a route allows a principal that is not a super admin are channels of its own organization only. |
| TenantRouting.HistoryIsWithin | backend/app/api/routes/ws.py:114-119 | A history reply contains only events the session may see. |
| TenantRouting.RetentionFollowsBus | backend/app/main.py:40-43 | In every run of the whole system, what retention stored since the bus last started is exactly what was dispatched, plus the event in hand once it is retained, which is a prefix of what the bus accepted; each channel's stream is the last stored events routed to it. Nothing is skipped, repeated or reordered from publish to stream. |
| CacheService.LookupsAreSafe | backend/app/cache/cache_service.py:24-43 | Under any pattern of Redis failures, a returned value was set for that key earlier, is within its time to live, and was not followed by a delete that Redis carried out. |
| CacheService.DeleteCanBeUndone | backend/app/cache/cache_service.py:59-68 | A lookup after a delete finds something if and only if the delete missed Redis, the lookup reaches it, and it holds a live entry. |
| CacheService.TierIsPlainMapOfItsWrites | backend/app/cache/cache_service.py:24-68 | In every timely history, under any failures and recoveries, a lookup answers like a plain map with expiry of those writes that the serving tier took. |
| CacheService.PlainMapIffLastWriteTaken | backend/app/cache/cache_service.py:24-68 | So it answers like the plain map of all writes if and only if the serving tier's last write is the last write, or neither of the two is still live. |
| CacheService.CurrentTierIsPlainMap | backend/app/cache/cache_service.py:24-57 | In particular whenever the tier that serves a lookup took the key's last write. |
| CacheService.ConstantStatusIsPlainMap | backend/app/cache/cache_service.py:24-68 | When the Redis status never changes, be it good or bad, the cache is a plain map with expiry for every key. |
| CacheService.ChangingStatusShadows | backend/app/cache/cache_service.py:27-41 | An instance where it does not: a value set while Redis was away is shadowed by the older one. |
| CacheService.CacheService.Get | backend/app/cache/cache_service.py:24-43 | Redis answers alone when it answers; otherwise the local fallback, forgetting what has expired. |
| CacheService.CacheService.Set | backend/app/cache/cache_service.py:45-57 | Stores in Redis, or in the fallback when Redis did not acknowledge; an explicit zero selects the default time to live. |
| CacheService.CacheService.Delete | backend/app/cache/cache_service.py:59-68 | Removes the key from the fallback always and from Redis when reached. |
| CacheService.RedisServesBeforeDeadline | backend/app/cache/cache_service.py:24-52 | A value set in Redis is served up to but not including its deadline. |
| CacheService.FallbackServesThroughDeadline | backend/app/cache/cache_service.py:39-57 | A value set in the fallback is still served at its deadline. |
| CacheService.RedisRefusesExpired | backend/app/cache/cache_service.py:45-57 | Redis takes no value without a positive time to live, so such a value goes to the fallback whatever Redis answers. |
| CacheService.SetReaches | backend/app/cache/cache_service.py:45-57 | A set reaches Redis alone, the fallback alone, or both when Redis takes the value without being heard. |
| CacheService.MissForgets | backend/app/cache/cache_service.py:39-43 | A lookup that Redis does not answer forgets the key when it finds it expired; no other lookup changes anything. |
| PolicyCache.StalenessIsBounded | backend/app/engine/orchestration.py:96-124 | In every interleaving of gateway fills and policy writes and under any Redis failures, the list used is the enabled set (first 500) committed at the instant it was read, and that instant is no older than the time to live plus the fill's own duration. |
| PolicyCache.SupersededListsExpire | backend/app/engine/orchestration.py:113-124 | A list superseded by a later commit is used for at most the time to live after that commit plus the part of its own fill that came after it. |
| PolicyCache.StaysCurrentIffClean | backend/app/engine/orchestration.py:98-124 | The exact condition, when lookups and key drops all meet the same Redis status, whichever it is: after a fill every use stays current, whatever timely steps follow before the next fill, if and only if at the fill no writer is between its cache delete and its end and the list is the committed one. |
| PolicyCache.CleanFillsKeepFresh | backend/app/engine/orchestration.py:98-124 | Over whole runs: when every fill is clean in that sense, every list used is the one committed at that moment. |
| PolicyCache.SequentialUsesAreCurrent | backend/app/services/policy_service.py:58-59 | When lookups and key drops meet one Redis status and no fill is under way between a writer's cache delete and its commit, every list used is the one committed at that moment, because such runs have clean fills only. |
| PolicyCache.ApartIsExact | backend/app/services/policy_service.py:117-118 | The invariant of such runs: every list cached, read or used is the committed one, and while one is cached no writer is past its delete. |
| PolicyCache.RefillBeforeCommitGoesStale | backend/app/services/policy_service.py:134-135 | An instance with overlap: a gateway refills the dropped key before the commit, and requests use the old list with no write in progress at any time up to the time to live after the fill, so longer than the time to live after the commit. |
| PolicyCache.EnabledKeepsOrder | backend/app/repositories/base.py:78-98 | In the list a row stays in its place among the others exactly when it is enabled and not deleted. |
| PolicyCache.FiveHundredAreRead | backend/app/engine/orchestration.py:103-110 | The list is cut after its 500 oldest rows. |
| PolicyCache.GatewayReadsOnce | backend/app/engine/orchestration.py:98-124 | A gateway reads only after it found nothing, and fills only after it read. |
| PolicyCache.RollbackEndsWriter | backend/app/services/policy_service.py:58-59 | A writer that gives up leaves table and cache as they are. |
| PolicyCache.LookupForgetsExpired | backend/app/cache/cache_service.py:39-43 | A lookup that finds nothing while Redis is away drops the expired list from the fallback. |
| PolicyEngine.CachingKeepsMatches | backend/app/engine/orchestration.py:111-124 | Evaluating the cached dictionaries gives the same matches in the same order, or the same error, as evaluating the stored rows. |
| PolicyEngine.ReorderingPermutesMatches | backend/app/engine/policy_engine.py:22-52 | Permuting the policies permutes the matches and changes nothing else, including whether evaluation fails. |
| PolicyEngine.MatchMeaning | backend/app/engine/policy_engine.py:34-39 | An enabled policy matches if and only if it has conditions and all of them, or in any other mode at least one, hold. |
| PolicyEngine.MatchReportsConditions | backend/app/engine/policy_engine.py:48-48 | A match reports every condition in the "all" mode and at least one otherwise. |
| PolicyOperators.GreaterMeans | backend/app/engine/policy_engine.py:76-80 | A policy with the one condition "gt" matches if and only if both values convert to numbers and the field's is greater; it fails if and only if one that is converted is too large. |
| PolicyOperators.LessMeans | backend/app/engine/policy_engine.py:81-85 | The same for "lt" and less. |
| PolicyOperators.EqMeans | backend/app/engine/policy_engine.py:60-61 | "eq" matches if and only if the two are the same value: equal numbers with booleans as one and zero, equal texts, or containers of the same values. |
| PolicyOperators.NeqMeans | backend/app/engine/policy_engine.py:62-63 | "neq" matches if and only if they are not. |
| PolicyOperators.ContainsMeans | backend/app/engine/policy_engine.py:64-65 | "contains" matches if and only if some slice of the field's lowered text is the value's lowered text. |
| PolicyOperators.InMeans | backend/app/engine/policy_engine.py:66-67 | "in" matches if and only if the value is a list with a member that is the same value as the field's. |
| PolicyOperators.StartsWithMeans | backend/app/engine/policy_engine.py:68-69 | "starts_with" matches if and only if the lowered text is the lowered value followed by something. |
| PolicyOperators.EndsWithMeans | backend/app/engine/policy_engine.py:70-71 | "ends_with" matches if and only if the lowered text is something followed by the lowered value. |
| PolicyOperators.RegexMeans | backend/app/engine/policy_engine.py:72-73 | "regex" is decided by the pattern search, and fails when that rejects its pattern. |
| PolicyOperators.ExistsMeans | backend/app/engine/policy_engine.py:74-75 | "exists" matches if and only if the dotted path leads through nested objects to a value that is not null. |
| PolicyOperators.UnknownOperatorNeverMatches | backend/app/engine/policy_engine.py:86-86 | Any other operator never matches and never fails. |
| PolicyOperators.ModesMean | backend/app/engine/policy_engine.py:32-39 | Mode "all" needs all conditions and any other mode one, and no condition is no match. |
| PolicyOperators.DefaultModeIsAll | backend/app/engine/policy_engine.py:32-38 | Without a mode all conditions are needed. |
| PolicyOperators.DefaultsAreEqAndNull | backend/app/engine/policy_engine.py:56-57 | A condition without operator tests for equality, and one without value compares with null. |
| PolicyOperators.ResolveFindsActual | backend/app/engine/policy_engine.py:88-97 | Resolving a path finds exactly the value at the end of the trail of its parts, and null without one. |
| PolicyOperators.UnmarkedPolicyIsSkipped | backend/app/engine/policy_engine.py:26-28 | A cached policy whose "enabled" is absent or empty is skipped, whatever its rule. |
| PolicyOperators.RuleMustBeMapping | backend/app/engine/policy_engine.py:30-31 | A rule that is no mapping is ignored when it is empty and fails otherwise. |
| PolicyOperators.ConditionsMustBeList | backend/app/engine/policy_engine.py:31-39 | Conditions that are no list never match, and fail unless they are an empty text or mapping. |
| PolicyOperators.FieldMustBeText | backend/app/engine/policy_engine.py:55-58 | A field that is not text finds null when it is empty and fails otherwise. |
| PolicyOperators.FalseValues | backend/app/engine/policy_engine.py:27-39 | The values that count as absent: null, false, zero and everything empty. |
| PolicyOperators.MatchNamesItsPolicy | backend/app/engine/policy_engine.py:43-50 | A match carries the identifier, name and action of its policy. |
| PolicyOperators.CachedNames | backend/app/engine/policy_engine.py:45-46 | A match of a cached policy carries the text of its identifier and name, or an empty identifier and the name "Unnamed Policy". |
| PolicyOperators.ReportCountsConditions | backend/app/engine/policy_engine.py:48-48 | A match reports exactly how many of its conditions hold. |
| PolicyOperators.CachedActions | backend/app/engine/policy_engine.py:40-42 | The action words a cached policy may use; an absent one means REVIEW, another word fails. |
| PolicyEngine.EvaluatePolicies | backend/app/engine/policy_engine.py:22-52 | The loop over the policies collects the matches in order and stops at the first error. |
| PolicyEngine.CollectResults | backend/app/engine/policy_engine.py:34-36 | The loop over the conditions evaluates every one, in order, before combining them. |
| PolicyEngine.MatchPolicy | backend/app/engine/policy_engine.py:26-50 | The body of the policy loop: disabled, malformed, unmatched and matched policies. |
| PolicyEngine.ResolveField | backend/app/engine/policy_engine.py:88-97 | The cursor loop walks the dotted path and stops at the first missing part. |
| PolicyEngine.SplitRoundTrips | backend/app/engine/policy_engine.py:92-92 | Splitting a path at its dots and joining it again gives the path back. |
| PolicyEngine.SplitPartsHaveNoDot | backend/app/engine/policy_engine.py:92-92 | No part of a split path contains a dot. |
| PolicyEngine.ProjectionKeepsOutcome | backend/app/engine/policy_engine.py:100-103 | A policy and its cached dictionary evaluate alike, attribute by attribute. |
| GovernanceEngine.OutcomeIgnoresCachingAndOrder | backend/app/engine/governance_engine.py:47-62 | Neither caching the policies nor their order changes the risk, the decision, or the matches up to order. |
| GovernanceEngine.StoredRowsAreKnown | backend/app/engine/policy_engine.py:40-42 | Policies as stored always name a known action; only a cached dictionary with an action that is not text can pass another one on. |
| GovernanceEngine.UnknownActionFails | backend/app/engine/decision_engine.py:35-55 | A match with an unknown action makes the decision fail unless the agent is already blocked or quarantined. |

## Left out

- Text produced for people: risk factors, behaviour indicators, anomaly reasons, decision messages, explanations and recommendations.
- Database failures and cancellation in the middle of a gateway request: of the ways it can end early, the refused tenant check and a raising evaluation are modelled.
- Correlation, explainability and recommendation engines, audit, alert, metric, trace and telemetry calls: none of them feeds the modelled state.
- The cached intelligence histories capped at 200 items: written for display, never read back by the loop.
- Agent trust and status edits by administrators between requests: status is an input of each request, trust changes only through the loop.
- Concurrent gateway requests of one agent: runs of the trust loop are sequential, and rows with equal timestamps keep arrival order.
- Pattern matching in the threat detector: the findings are an arbitrary input of a request.
- Case folding of non-ASCII letters in metadata, and of the Gemini level: no such letter changes the comparisons made.
- Rounding of floating point clock readings and of the risk average: times are reals; the average is compared by multiplying out, which agrees for integer scores.
- NaN and infinite numbers in policy rules and in a history request's limit.
- PolicyEngine.EvaluatePolicies: the order of keys inside a JSON object is not represented, so a `str` of an object cannot depend on it.
- The concurrency semaphore and the per-call timeout around Gemini calls, and the calls themselves: each attempt's outcome is arbitrary.
- Heartbeat pings and the background scheduler: they reach the modelled state only as closes, activity and cleanups.
- In-place update of the state in `GeminiService.Run`, `PolicyCache` and `TenantRouting`: these protocols are state machines over values; the classes cover the single components.
- JSON encoding and decoding of cached values: the cached form is the decoded value.
- CacheService.CacheService.Get: one process is modelled; with several, each has its own local fallback beside the shared Redis.
- WsManager.WebSocketManager.CleanupIdleConnections: closes its snapshot without interruption; what other steps can do between the closes is stated over runs, in `CleanupClosesItsSnapshot` and `CleanupSparesTheRest`.
- WebSocket connection objects outlive their entry in the manager; here a connection is a value in the manager's map, and what a dropped one was still allowed to read is kept in the session table of `TenantRouting`.
- The sorted order of the channel list of an event: channels are a set, and retention is proved for every enumeration of it.
- Negative subscription caps and retention limits.
- Token checks, client address extraction, path limits, message size and JSON framing of the websocket routes: the principal, the route and the decoded message are inputs.
- All of the frontend, the repositories' SQL, migrations, dashboards and exports.
