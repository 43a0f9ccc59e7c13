# kube-bt-sync: verified model

kube-bt-sync is a console that runs workloads on Kubernetes and publishes their Ingress domains on
Baota web panels. This project models the algorithms and small protocols inside it and proves what
they promise. Go methods with loops are Dafny methods proved against a specification function; the
laws are then lemmas about that function. Records the source updates in place are classes.

| file | part of the system |
|---|---|
| `ChatClip.dfy` | normalising a chat request and clipping it to the rune limit |
| `GatewayFallback.dfy`, `GatewayLoops.dfy`, `GatewayTerms.dfy` | trying models, routes and urls of an OpenClaw gateway in turn |
| `RedisCommand.dfy`, `RedisTerms.dfy` | the redis-server command as a shell string and as an argument vector, with the POSIX shell's word rules |
| `SessionTokens.dfy` | session cookies and the two step tokens of the TOTP login |
| `PanelReply.dfy`, `PanelSync.dfy`, `PanelTrust.dfy`, `PanelChoice.dfy` | the Ingress to panel sync: reading a panel's answers, the retried steps, what a good report is worth |
| `SyncRun.dfy`, `SyncProtocol.dfy` | one sync run and its stored reports, and any interleaving of sync calls |
| `BaotaTargets.dfy`, `BaotaLookup.dfy`, `BaotaTerms.dfy` | saving, merging and looking up the panels |
| `KafkaExposure.dfy`, `KafkaExposureRuns.dfy`, `KafkaAdvertise.dfy` | NodePort Services of a Kafka instance, over whole runs |
| `OpenClawRegistry.dfy`, `OpenClawTerms.dfy`, `OpenClawRuns.dfy`, `OpenClawPvcCase.dfy` | the gateway registry and the objects deletion removes |
| `ResponseCache.dfy`, `ResponseCacheRuns.dfy` | the response cache |
| `ScramHi.dfy` | the salted password of SCRAM |
| `JsonPaths.dfy`, `OpenClawConfig.dfy`, `OllamaWindows.dfy`, `OpenClawRemediation.dfy`, `OpenClawDocument.dfy` | the writers of openclaw.json |
| `AuditLog.dfy`, `AuditPruning.dfy` | the audit file: tail, list, retention |
| `AdminGuard.dfy` | the guard of the last administrator |
| `Text.dfy`, `Options.dfy` | shared helpers |

`dafny verify dfyconfig.toml` checks everything.

## What turned out not to hold as promised

Each of these has the exact condition under which the code does meet the promise, and an input at which it
does not.

- A good sync report does not mean that site and proxy are there. An empty body, a page with status 200, broken JSON and an object without a status all count as success, and any complaint that contains "exist", such as "does not exist", counts as "already there". A step's ok is right in every situation exactly if every accepted answer is true (`PanelTrust.StepsAreRightIffTruthful`, `PanelTrust.GoodReportServes`); wrong good reports: `PanelTrust.EmptyAnswer`, `PageAnswer`, `CutOffAnswer`, `NoStatusAnswer`, `MissingDirectoryAnswer`.
- Nor does it mean that an existing proxy points to the current url: nothing is ever repointed (`PanelSync.ProxyUrlIsCurrent`; `PanelTrust.StaleProxyKept`).
- Clipping can end above the limit when the excess is in messages it may not cut (`ChatClip.ClipSuffices`; `ChatClip.LongSystemMessageStays`).
- The two Redis command forms differ as soon as one extra argument has inner white space: the shell form keeps it one word, the vector form splits it (`RedisCommand.FormsAgree`; `RedisCommand.SpacedArgumentDiffers`).
- A session whose user, nonce or role holds a pipe is minted but never accepted (`SessionTokens.SessionRoundTrip`; `SessionTokens.PipedUserIsRefused`).
- Deleting a gateway removes another one's volume claim in one case: a deployment named "pvc" beside a registration that still uses the old shared names (`OpenClawRuns.DeleteSparesOthers`; `OpenClawPvcCase.PvcIsTakenAway`).
- Setting a proxy and clearing it again is not a plain clear when `env` was not an object (`OpenClawConfig.SetThenClear`; `OpenClawConfig.StringEnvIsLost`).
- Creating a viewer with the runtime administrator's name, while no administrator row is enabled, shuts everyone out: creation is not checked (`AdminGuard.RunKeepsAccess`; `AdminGuard.ViewerNamedAdmin`). Deleting the last enabled administrator is refused even where the runtime account would take over (`AdminGuard.DeleteRefusal`; `AdminGuard.NeedlessRefusal`).

An exposure of a Kafka instance removes surplus Services only up to ordinal replicas + 8; that this is enough rests on
the limit of nine replicas (`KafkaExposureRuns.ApplyEffect`, `KafkaExposureRuns.RunKeepsTidy`).

## Model

| member | source | states |
|---|---|---|
| ChatClip.NormalizeChatMessages | internal/app_openclaw_chat.go:38-76 | the messages kept, or the one trimmed user message of a request without messages, clipped to the limit; or the first of the errors for an unknown role, no text, more than 32 messages |
| ChatClip.KeepMessages | internal/app_openclaw_chat.go:40-56 | stops with an error exactly if a non-blank message has a role other than the three, naming the first; else hands over what KeptInOrder describes |
| ChatClip.KeptInOrder | internal/app_openclaw_chat.go:40-56 | what is handed over: at rising positions of the request, exactly the messages with non-blank role and text, the role trimmed and in lower case, the text trimmed |
| ChatClip.RolesMean | internal/app_openclaw_chat.go:44-52 | which conversations have known roles, up to case and white space |
| ChatClip.FindVictim | internal/app_openclaw_chat.go:99-119 | the two scans pick the message VictimIsLongest describes |
| ChatClip.VictimIsLongest | internal/app_openclaw_chat.go:99-122 | the cut falls on a longest eligible message: the last such user message, or the first such message if no user message has text; there is none only if all are empty |
| ChatClip.Clip | internal/app_openclaw_chat.go:90-142 | the in-place loop computes the 64-round specification; the branch for a cut longer than the message never runs |
| ChatClip.CutProgress | internal/app_openclaw_chat.go:93-140 | every cut ends the loop or uses up one of at most two cuts a message can take, and never goes below the least reachable total |
| ChatClip.ClippedReachesFloor | internal/app_openclaw_chat.go:90-142 | given as many rounds as cuts are left, the loop ends within max or at the least reachable total |
| ChatClip.TwoCutsEachSuffice | internal/app_openclaw_chat.go:90-142 | two rounds for each message are enough for any number of messages |
| ChatClip.ClipSuffices | internal/app_openclaw_chat.go:90-142 | for at most 32 messages 64 rounds suffice: the result fits exactly when the text that cannot be cut plus at most 15 runes for each eligible message fits, and otherwise every eligible message is down to 15 runes |
| ChatClip.FewerCutsFail | internal/app_openclaw_chat.go:90-142 | with a limit of exactly the least reachable total, fewer rounds than cuts are left miss it |
| ChatClip.SixtyFourAreNeeded | internal/app_openclaw_chat.go:90-142 | 64 is not one too many: 32 user messages of 96 runes or more with such a limit need all 64 rounds |
| ChatClip.LongSystemMessageStays | internal/app_openclaw_chat.go:99-108 | a system message above the limit beside a user message with text comes out whole, and the result too long |
| ChatClip.OneCutIsExact | internal/app_openclaw_chat.go:123-130 | a cut that leaves at least 80 runes lands exactly on max |
| ChatClip.ClipPreserves | internal/app_openclaw_chat.go:90-142 | count, order and roles stay, other messages are untouched when a user message has text, and each text is the original, the bare suffix or an original prefix of at least 80 runes with one suffix |
| ChatClip.ClipToLimit | internal/app_openclaw_chat.go:71-76 | a request is refused exactly when the least total clipping can reach is above 24000 runes |
| GatewayFallback.PingModelsSpec | internal/app_openclaw_chat.go:367-390 | the configured model is tried first and no model twice, whatever its case |
| GatewayFallback.CandidatesSpec | internal/app_openclaw_upstream.go:47-148 | one or two routes always, one or two urls unless the base is blank, none repeated |
| GatewayFallback.PostRaw | internal/app_openclaw_chat.go:161-211 | at most three tries, all but the last ended by a transient reset; the answer of the last try is the one used, and a last try without an answer is none |
| GatewayFallback.ScanRefinesOrder | internal/app_openclaw_chat.go:298-345 | for any responses, requests follow the order of groups and urls without repeats, one follows another only after a 404 or a 5xx, success needs the last answer below 400 with choices, and exhaustion needs every group to have ended in a 5xx |
| GatewayLoops.PostChatCompletions | internal/app_openclaw_chat.go:276-346 | the nested loops send what the ordered scan sends and report its outcome, each request retried as PostRaw does and made to the route of its group and to its url; with a base and a token there always is an outcome, so the last return is unreachable |
| GatewayLoops.PingRoute | internal/app_openclaw_chat.go:474-526 | one model and route either settles the ping or ends in a 5xx that moves it to the next |
| GatewayLoops.PingModel | internal/app_openclaw_chat.go:460-527 | one model settles the ping or ends every one of its routes in a 5xx |
| GatewayLoops.GatewayHealthChatPing | internal/app_openclaw_chat.go:434-539 | the three nested loops of the ping are the scan over all (model, route) pairs, every request goes to its route and url, and the pair reported is the one whose request was last |
| GatewayLoops.RunIsOrdered | internal/app_openclaw_chat.go:276-539 | either call seen by its requests alone: ordered, nothing after a 4xx that is no 404, a 404 final only at the last url |
| GatewayLoops.PingFallsThrough | internal/app_openclaw_chat.go:527-538 | a ping falls through only if every model and route had its last request answered with a 5xx |
| GatewayLoops.GroupsAreApart | internal/app_openclaw_chat.go:460-466 | distinct (model, route) pairs take distinct places in that order |
| GatewayLoops.RouteOfGroup | internal/app_openclaw_chat.go:460-466 | the place a (model, route) pair takes is asked for that route |
| GatewayLoops.RequestOnTheWire | internal/app_openclaw_chat.go:161-211 | request i of a call came to what its last try brought |
| GatewayLoops.OutcomeOnTheWire | internal/app_openclaw_chat.go:161-211 | on the wire alone: a success is the text of an answer below 400 to the last try of the last request, earlier tries of it were resets, and a transport failure means that this try went unanswered |
| GatewayLoops.PostsAreBounded | internal/app_openclaw_chat.go:161-211 | over a whole call or ping, whatever the network does, no candidate is asked twice and at most three sends are made for each |
| GatewayTerms.BaseMeans | internal/app_openclaw_upstream.go:28-32 | the base is the address without white space around it and without slashes at its end |
| GatewayTerms.VersionedUrls | internal/app_openclaw_upstream.go:47-74 | a base ending in /v1 is asked at /v1/chat/completions and, if a gateway, then at /chat/completions |
| GatewayTerms.OtherUrls | internal/app_openclaw_upstream.go:28-74 | any other base gets the version segment, except at open.bigmodel.cn, and a gateway is then asked without it |
| GatewayTerms.RoutesMean | internal/app_openclaw_upstream.go:99-148 | which body model and which header: a gateway is asked for its agent with the model provider-qualified, then bare |
| GatewayTerms.PingModelsMean | internal/app_openclaw_chat.go:367-390 | the configured model, then gpt-4o-mini and gpt-3.5-turbo unless one of them is the configured one in any case |
| RedisCommand.RunQuoted | internal/app_redis_k8s_deploy.go:168-170 | whatever the text, the shell reads its quoted form as that text, one word |
| RedisCommand.RdbArgv | internal/app_redis_k8s_tuning.go:95-124 | the save words of the lines, one empty rule if any line says off or none |
| RedisCommand.RdbShellFragment | internal/app_redis_k8s_tuning.go:126-154 | prints the same save rules as the vector form, off or none in mid-list included |
| RedisCommand.ExtraArgsShellFragment | internal/app_redis_k8s_tuning.go:156-170 | one quoted word for each non-blank element |
| RedisCommand.ExtraArgsArgv | internal/app_redis_k8s_tuning.go:172-185 | the white-space separated words of every element |
| RedisCommand.ExtrasAgree | internal/app_redis_k8s_tuning.go:156-185 | the extra words agree exactly when no trimmed element has inner white space |
| RedisCommand.TuningPrints | internal/app_redis_k8s_tuning.go:10-93 | the tuning flags of the two forms are the same words |
| RedisCommand.BaseArgv | internal/app_redis_k8s_deploy.go:204-266 | the words before the RDB lines, for every memory, policy and directory |
| RedisCommand.BuildMainContainer | internal/app_redis_k8s_deploy.go:204-266 | with a password: "/bin/sh -c" with one argument, whose words under the container's environment are exec, the options' words and last --requirepass and the trimmed password; without one: no command, no environment, the argument vector, in which --requirepass occurs only if an option supplies it |
| RedisCommand.NoFixedPassword | internal/app_redis_k8s_deploy.go:234-266 | no word that the vector form itself adds asks for a password |
| RedisCommand.BaseTexts | internal/app_redis_k8s_deploy.go:204-266 | the words before the save rules, with 256mb for a blank memory limit |
| RedisCommand.PasswordFormWords | internal/app_redis_k8s_deploy.go:204-266 | the shell splits the password form into exec, the command words, --requirepass and the password as one word, whatever it holds |
| RedisCommand.FormsAgree | internal/app_redis_k8s_deploy.go:204-266 | that command is exec followed by the vector form exactly when every trimmed extra argument is a single word |
| RedisCommand.SpacedArgumentDiffers | internal/app_redis_k8s_tuning.go:156-185 | the argument "--foo bar" is one word in one form and two in the other |
| RedisTerms.TuningMeans | internal/app_redis_k8s_tuning.go:50-92 | each tuning flag with the number its option denotes or the default, the switches, and the I/O threads only if positive |
| RedisTerms.PolicyMeans | internal/app_redis.go:741-749 | a policy Redis knows is used, up to case and white space; any other becomes allkeys-lru |
| RedisTerms.SaveLinesMean | internal/app_redis_k8s_tuning.go:95-124 | any line in its place among the others gives a rule of its first two fields, or nothing, unless snapshots are switched off |
| RedisTerms.ExtrasMean | internal/app_redis_k8s_tuning.go:156-185 | any extra argument in its place among the others: one word in the shell form, its fields in the vector form |
| SessionTokens.DecodeEncode | internal/auth.go:145-147 | unpadded base64url (section 5 of RFC 4648) reads back what it prints |
| SessionTokens.ParsePrinted | internal/auth.go:141-171 | a printed 64-bit expiry parses to itself |
| SessionTokens.BuildSegment | internal/buildversion.go:8-17 | never empty, no pipe and no line break |
| SessionTokens.Signer.OpenSign | internal/auth_totp.go:113-139 | opening a signed payload gives it back |
| SessionTokens.SessionRoundTrip | internal/auth.go:134-194 | a minted session is accepted exactly when user and nonce are non-blank, no field holds a pipe and it has not expired, and yields user, role and nonce |
| SessionTokens.PipedUserIsRefused | internal/auth.go:134-194 | a session for a user name with a pipe is minted and refused |
| SessionTokens.AcceptedSession | internal/auth.go:149-194 | an accepted token has two parts, the second of them the HMAC of the first; its payload names a non-blank user and nonce, and it is what minting them with the stored role and expiry signs, exactly if the expiry is printed canonically and the role is not blank |
| SessionTokens.UnsignedIsRefused | internal/auth.go:149-163 | a token that is not two parts with the second the HMAC of the first is an invalid token to all three readers, whatever it says |
| SessionTokens.AcceptedStep | internal/auth_totp.go:122-139 | an accepted step token is signed as well |
| SessionTokens.OtherBuildIsRefused | internal/auth.go:164-185 | a session minted by one build is refused by every other |
| SessionTokens.StepRoundTrip | internal/auth_totp.go:44-111 | exactly when both step tokens are read back, and that all fields come back |
| SessionTokens.StepTokensAreNoSessions | internal/auth_totp.go:44-139 | no step token is a session or a step token of the other kind, whatever its fields |
| PanelReply.AcceptedKinds | internal/baota.go:193-243 | an answer is accepted exactly when it confirms, says nothing about a status, or complains in words read as "already there", and only the last is taken for that |
| PanelReply.StatusMeans | internal/baota.go:224-239 | which statuses are failures: false, 0 and texts other than true, 1 and yes |
| PanelReply.FailureMeans | internal/baota.go:202-222 | a failure is an error exactly when its message, or the stock one, has none of the four words |
| PanelReply.EmptyBodyIsSuccess | internal/baota.go:194-197 | an empty body is a success |
| PanelReply.PageIsSuccess | internal/baota.go:194-197 | an HTML page is a success |
| PanelReply.CutOffIsSuccess | internal/baota.go:198-201 | JSON that does not parse is a success |
| PanelReply.NoStatusIsSuccess | internal/baota.go:202-205 | an object without a status is a success |
| PanelReply.MissingIsAlreadyExists | internal/baota.go:216-220 | "does not exist" is taken for "already exists" |
| PanelSync.RetryOutcome | internal/baota_sync_run.go:55-80 | a step stops at its first accepted answer among at most four and is ok exactly if its last answer is; the thing is there afterwards exactly if it was before or a call, failed ones included, took effect; nothing else changes |
| PanelSync.EnsureReport | internal/baota_sync_run.go:82-156 | one to four attempts a step, and overallOk exactly when all steps are ok |
| PanelSync.EnsureEffect | internal/baota_sync_run.go:82-156 | what a target's steps leave on any panel: what was there and what their calls made, whatever the report says |
| PanelSync.ProxyUrlIsCurrent | internal/baota_sync_run.go:112-130 | the proxy found afterwards has the target's url exactly when it was missing before or had it already |
| PanelSync.ReportsFollowTargets | internal/baota_sync_run.go:280-295 | report i is about target i |
| PanelChoice.ChosenPanel | internal/baota_sync_run.go:83-87 | the panel called is the row of the id the target asks for, or the default row for a blank or unknown one |
| PanelChoice.EnsureTouchesOwnPanel | internal/baota_sync_run.go:82-156 | a target's steps change at most the panel at its row's url, and the report names the id asked for, or the default row's |
| PanelTrust.RunEffect | internal/baota_sync_run.go:282-290 | over any stretch of a run a thing is on a panel exactly if it was at the start or a call for it took effect |
| PanelTrust.ServedAfterRun | internal/baota_sync_run.go:225-307 | the exact condition for a target to be served at the end, reports aside |
| PanelTrust.GoodReportServes | internal/baota_sync_run.go:82-156 | a good report rests on two accepted answers, and the domain is served exactly if both were true |
| PanelTrust.TruthfulKinds | internal/baota.go:193-243 | which of the three kinds of accepted answers must be true of a panel for all of them to be |
| PanelTrust.StepsAreRightIffTruthful | internal/baota_sync_run.go:60-80 | an ok step means that the thing is there, in every situation, if and only if accepted answers are true |
| PanelTrust.GoodRunServes | internal/baota_sync_run.go:225-307 | on truthful panels every target with a good report is served at the end of the run, even if failed attempts took effect |
| PanelChoice.GoodRunServesRow | internal/baota_sync_run.go:225-307 | the same on the url of the target's own row |
| PanelTrust.AcceptedEnsure | internal/baota_sync_run.go:82-156 | where answers are accepted a target takes one attempt for site and proxy, and changes nothing if served already |
| PanelTrust.RerunIsQuiet | internal/baota_sync_run.go:225-307 | re-running where answers are accepted changes no site or proxy and takes one attempt a step |
| PanelTrust.EmptyAnswer | internal/baota.go:194-197 | a good report with nothing served: an empty body |
| PanelTrust.PageAnswer | internal/baota.go:194-197 | the same for an HTML page |
| PanelTrust.CutOffAnswer | internal/baota.go:198-201 | the same for broken JSON |
| PanelTrust.NoStatusAnswer | internal/baota.go:202-205 | the same for an object without a status |
| PanelTrust.MissingDirectoryAnswer | internal/baota.go:216-220 | the same for a complaint that something does not exist |
| PanelTrust.StaleProxyKept | internal/baota_sync_run.go:112-130 | a good report over a proxy that keeps its old address |
| SyncRun.ScriptShape | internal/baota_sync_run.go:225-307 | the reports of a run all say Running but the last, Domains grows by appending at most one entry at a time and each is a first part of the last, which has one for each target |
| SyncRun.SyncServer.PostWithRetry | internal/baota_sync_run.go:60-80 | the retry loop is the specified one, panel effects included |
| SyncRun.SyncServer.EnsureSiteAndProxy | internal/baota_sync_run.go:82-156 | site, proxy and certificate steps in turn, on the panel chosen for the target |
| SyncRun.SyncServer.ListTargets | internal/baota_sync_run.go:158-188 | one target for each non-blank host of each managed Ingress, in order, and the number of managed ones |
| SyncRun.TargetsInOrder | internal/baota_sync_run.go:158-188 | targets and managed count of Ingresses one after another |
| SyncRun.HostsInOrder | internal/baota_sync_run.go:174-186 | targets of an Ingress host by host: one for a named host of a managed Ingress, with that Ingress's url, certificate choice and panel id |
| SyncRun.SyncServer.Run | internal/baota_sync_run.go:225-307 | a call that loses the lock changes nothing; any other stores exactly its script, leaves the panels as its targets do and unlocks; it skips the panels exactly for a switched-off timer, missing configuration or a failed listing, with that reason |
| SyncRun.SyncPrefixStable | internal/baota_sync_run.go:280-295 | the reports stored on the way are prefixes of the final ones |
| SyncProtocol.StepKeepsInv | internal/baota_sync_run.go:225-307 | every step of the state machine keeps its invariant |
| SyncProtocol.InvHolds | internal/baota_sync_run.go:225-307 | so it holds in every state of every execution |
| SyncProtocol.SyncSafety | internal/baota_sync_run.go:190-205 | at most one active call, a stored Running report is that of the lock's holder, runs are stored uninterrupted, and within one Domains only grows by appending |
| SyncProtocol.RefusedStoresNothing | internal/baota_sync_run.go:225-240 | a call refused the lock never stores a report, then or later |
| SyncProtocol.FinishedCall | internal/baota_sync_run.go:225-307 | in any execution the entries of a finished call are one piece of the log and exactly its script; the last alone is not Running, and its Domains, which the others are first parts of, has one entry for each target of the call, in order |
| BaotaTargets.MergeAndValidateOnPut | internal/baota_targets.go:198-287 | the save loop: clean rows or the error of the first bad one, with exactly one default, mirrored at the top level |
| BaotaTargets.KeepOneDefault | internal/baota_targets.go:258-275 | exactly one default is left: the first marked row, or row 0 |
| BaotaTargets.CleanShape | internal/baota_targets.go:205-256 | the loop succeeds exactly when ids are distinct after cleaning and every row is saveable, and then row by row |
| BaotaTargets.PutAccepts | internal/baota_targets.go:198-287 | a save succeeds exactly then, and what it saves has distinct ids, real keys and one default |
| BaotaTargets.MaskRoundTrip | internal/baota_targets.go:205-287 | an accepted list with any keys shown as "" or "***" saves back to itself |
| BaotaTargets.AcceptedIsFixed | internal/baota_targets.go:198-287 | an accepted list is saved unchanged, whatever is stored |
| BaotaTargets.PutIdempotent | internal/baota_targets.go:198-287 | saving twice is saving once |
| BaotaTargets.MaskedRowKeepsOwnKey | internal/baota_targets.go:227-245 | a masked row gets only the key stored for its own id, single-row migration apart |
| BaotaTerms.ValidIdMeans | internal/baota_targets.go:122-131 | ids are 1 to 63 small letters, digits and inner hyphens |
| BaotaTerms.UsableUrlMeans | internal/baota_targets.go:227-236 | a url parses and begins with http:// or https:// in any case |
| BaotaTerms.ResolvedKeyMeans | internal/baota_targets.go:237-248 | a key of its own counts; a blank or "***" one is that of the last stored row with the id, or for a single row the old top-level key, and nothing else |
| BaotaTerms.PutMeans | internal/baota_targets.go:198-287 | when a save succeeds, and then each row, which row is the default and what is mirrored, in terms of the rows submitted |
| BaotaTerms.PutErrorHolds | internal/baota_targets.go:205-256 | a refused save names the first row that is not fine, and a fault it has |
| BaotaLookup.MergeIntoConfig | internal/baota_targets.go:133-195 | the merge loop computes the specified configuration |
| BaotaLookup.SavedListIsMerged | internal/baota_targets.go:133-195 | an accepted list is merged row for row with the same default, mirrored |
| BaotaTerms.MergedInOrder | internal/baota_targets.go:133-195 | of any saved list exactly the rows with a new plain id, a url and a key are merged, in order and trimmed |
| BaotaTerms.MergeMeans | internal/baota_targets.go:133-195 | a single default is kept, else the first row becomes it, and it is mirrored; without a merged row the configuration keeps its own panel |
| BaotaLookup.SavedListIsServed | internal/baota_targets.go:35-120 | each id connects to its own row's url, key and choice about certificates, a blank or unknown id to the default row's |
| BaotaTerms.TopLevelPanelServes | internal/baota_targets.go:35-120 | without a usable row the top-level panel serves every id |
| KafkaExposure.ServiceNameInjective | internal/app_kafka_exposure.go:46-48 | two names coincide only for the same ordinal of the same instance |
| KafkaExposure.Cluster.UpsertNodePortService | internal/app_kafka_exposure.go:67-130 | creates or updates one Service and returns the port it ended up with |
| KafkaExposure.Cluster.UpsertEach | internal/app_kafka_exposure.go:220-255 | the Services of all brokers in turn, up to the first failure |
| KafkaExposure.Cluster.DeleteNodePortServicesRange | internal/app_kafka_exposure.go:132-140 | removes exactly the ordinals of the range |
| KafkaExposure.Cluster.ApplyExposure | internal/app_kafka_exposure.go:195-299 | the whole change computes the specified world, instance and success, failures part-way included |
| KafkaExposure.MergeEnvVar | internal/app_kafka_exposure.go:182-193 | drops every entry of the name and appends the value unless blank |
| KafkaExposureRuns.DeleteRangeEffect | internal/app_kafka_exposure.go:132-140 | which brokers lose their Service and that nothing else changes |
| KafkaExposureRuns.UpsertAllEffect | internal/app_kafka_exposure.go:67-130 | after any outcome only the brokers below n changed, and after success broker i has the i-th port |
| KafkaExposureRuns.PortsAsked | internal/app_kafka_exposure.go:195-255 | ports given are kept; a wrong number of them, one outside 30000 to 32767, or a nodeport instance without a host is refused before anything changes |
| KafkaExposureRuns.ApplyEffect | internal/app_kafka_exposure.go:195-299 | a success leaves exactly the wanted brokers if and only if none had an ordinal of replicas + 9 or more; nothing outside the instance changes |
| KafkaExposureRuns.RunKeepsTidy | internal/app_kafka_template.go:58-63 | runs with 1 to 9 replicas never leave a Service of ordinal 9 or more, even when changes fail part-way |
| KafkaExposureRuns.OtherInstanceUnchanged | internal/app_kafka_exposure.go:46-140 | changing or removing one instance leaves every Service of another as it was |
| KafkaExposureRuns.ExposureIsExact | internal/app_kafka_k8s_delete.go:47 | after any run a success leaves exactly brokers 0 to replicas - 1 on their ports if the exposure reads nodeport, 3 of them for a count below 1, or none otherwise, and deletion leaves none |
| KafkaAdvertise.BothMerged | internal/app_kafka_exposure.go:270-284 | both variables occur once, at the end, with the new values |
| KafkaAdvertise.VariablesSet | internal/app_kafka_exposure.go:256-299 | after a success the environment ends with host and port list, blank for an internal instance, and the listener port is open |
| KafkaAdvertise.AcceptedExactly | internal/app_kafka_exposure.go:195-299 | on a cluster that works, exactly which exposures succeed: the container is there and, for nodeport, a host and either no ports or one in range for each broker |
| KafkaAdvertise.MergeTwice | internal/app_kafka_exposure.go:182-193 | merging the same values again changes nothing |
| KafkaAdvertise.RepeatChangesNothing | internal/app_kafka_exposure.go:195-299 | repeating a successful exposure with the stored ports changes no Service, no StatefulSet and no instance |
| KafkaAdvertise.CsvFields | internal/app_kafka_exposure.go:256-270 | splitting the port list gives the ports back in order |
| KafkaAdvertise.BrokersAdvertiseOwnPort | internal/app_kafka_exposure.go:20-44 | broker i advertises the host with the port of its own Service; all other ordinals advertise nothing |
| KafkaAdvertise.ExternalBootstrapCsv | internal/app_kafka_exposure.go:302-316 | host:port pairs in ordinal order, empty without a host |
| OpenClawRegistry.Server.FindInstance | internal/app_openclaw_store.go:93-101 | the first entry with the trimmed id |
| OpenClawRegistry.Server.PatchInstance | internal/app_openclaw_store.go:118-134 | changes that entry and no other |
| OpenClawRegistry.Server.RemoveInstance | internal/app_openclaw_store.go:136-149 | keeps the order of the entries with another id |
| OpenClawRegistry.Server.OtherSameNamespace | internal/app_openclaw_k8s_delete.go:22-35 | whether another registration shares the namespace |
| OpenClawRegistry.Server.DeleteResources | internal/app_openclaw_k8s_delete.go:37-115 | removes the instance's objects whose deletion works, the shared ones left where told to skip, and warns of the rest |
| OpenClawRegistry.Server.HandleDelete | internal/app_openclaw_handlers.go:593-635 | deletes the objects, then the registration |
| OpenClawRegistry.Server.HandleDeploy | internal/app_openclaw_handlers.go:252-263 | registers a new instance unless its namespace and deployment are taken, up to case |
| OpenClawTerms.PatchMeans | internal/app_openclaw_store.go:118-134 | the first entry with the id is changed, its account named only if blank, and no other |
| OpenClawTerms.WithoutInOrder | internal/app_openclaw_store.go:136-149 | what unregistering keeps, at rising positions: the entries with another id |
| OpenClawTerms.DeployMeans | internal/app_openclaw_k8s_names.go:8-22 | when a deployment is taken up, the names of its four objects and of its entry, and what one that gives up leaves behind |
| OpenClawTerms.DeleteMeans | internal/app_openclaw_k8s_delete.go:37-115 | which objects leave the cluster, by name: those the entry names, shared names for blank ones, unless they are spared |
| OpenClawRuns.CommonObject | internal/app_openclaw_k8s_names.go:8-22 | two separate registrations share an object exactly in the "pvc" case |
| OpenClawRuns.DeletionHits | internal/app_openclaw_k8s_delete.go:37-115 | what deletion removes of another registration: that claim and nothing else |
| OpenClawRuns.RunKeepsInv | internal/app_openclaw_handlers.go:252-263 | any run keeps ids and (namespace, deployment) pairs distinct, up to case |
| OpenClawRuns.WithoutKeeps | internal/app_openclaw_store.go:136-149 | removal keeps that invariant and exactly the entries with another id |
| OpenClawRuns.DeleteSparesOthers | internal/app_openclaw_handlers.go:593-645 | after any run, deleting one instance removes an object of a remaining one exactly in the "pvc" case, and all its own unless shared |
| OpenClawPvcCase.PvcIsTakenAway | internal/app_openclaw_handlers.go:593-645 | that case: an old gateway, "pvc" deployed beside it and deleted, and the old gateway's claim is gone |
| ResponseCache.RulesAreDisjoint | internal/api_response_cache.go:56-88 | no path matches two rules |
| ResponseCache.RuleOrderIrrelevant | internal/api_response_cache.go:56-88 | any order of the rules gives every path the same time to live |
| ResponseCache.TtlMeans | internal/api_response_cache.go:56-88 | a path below a prefix has that rule's time to live, any other none |
| ResponseCacheRuns.ResponseWriter.Write | internal/api_response_cache.go:102-110 | keeps the copy whole as long as it is below the limit, and never shorter than the limit afterwards |
| ResponseCacheRuns.Middleware.Record | internal/api_response_cache.go:90-110 | for any chunks, the copy is whole or too long to be stored |
| ResponseCacheRuns.StatusMeans | internal/api_response_cache.go:97-110 | the last status set counts, 200 if none was |
| ResponseCacheRuns.Middleware.Handle | internal/api_response_cache.go:113-166 | a body is stored exactly when the miss qualifies and is then the whole body; a hit answers with the stored body |
| ResponseCacheRuns.KeyTextInjective | internal/api_response_cache.go:44-54 | the hashed text tells role, path and query apart |
| ResponseCacheRuns.HitsReplay | internal/api_response_cache.go:113-166 | every hit replays the body of an earlier qualifying miss for the same role, path and query within the time to live |
| ScramHi.Hi | internal/app_kafka_scram.go:19-63 | the in-place loops compute U1 XOR ... XOR Ui of section 2.2 of RFC 5802, 4096 rounds for a count below one |
| ScramHi.HiIsParity | internal/app_kafka_scram.go:29-37 | a bit of the result is set exactly when an odd number of the Us have it set |
| ScramHi.HiExtends | internal/app_kafka_scram.go:29-37 | further iterations only XOR further Us in |
| JsonPaths.GetPutApart | internal/app_openclaw_files.go:54-111 | a write shows at no path beside it, even where ancestors had to be made |
| JsonPaths.PutPutApart | internal/app_openclaw_files.go:54-111 | writes at paths apart commute |
| JsonPaths.MadeOnTheWay | internal/app_openclaw_files.go:55-64 | making empty objects on the way to a key changes neither what is read nor what is written there, and nothing at all if the key was set |
| OpenClawConfig.Config.PatchAllowedOriginsIfEmpty | internal/app_openclaw_files.go:54-75 | the specified document, and changed exactly when the document changed |
| OpenClawConfig.Config.PatchChatCompletionsIfDisabled | internal/app_openclaw_files.go:84-111 | the specified document, and changed exactly when the document changed |
| OpenClawConfig.Config.MergeHttpProxy | internal/app_openclaw_proxy.go:62-85 | sets both variables, or clears them with the env object they leave empty |
| OpenClawConfig.OriginsChange | internal/app_openclaw_files.go:54-75 | afterwards there are origins, a stored list and a stored enabled flag are kept |
| OpenClawConfig.LastProxyWins | internal/app_openclaw_proxy.go:62-85 | a proxy set later leaves no trace of an earlier one |
| OpenClawConfig.SetThenClear | internal/app_openclaw_proxy.go:62-85 | set then clear is clear exactly when nothing is set, env is absent or env is an object |
| OpenClawConfig.StringEnvIsLost | internal/app_openclaw_proxy.go:62-85 | an env that is a string survives a clear, but not a set and a clear |
| OpenClawConfig.ProxyFrame | internal/app_openclaw_proxy.go:62-85 | every path beside the two variables reads as before |
| OllamaWindows.RaiseModels | internal/app_openclaw_files.go:149-161 | raises exactly the windows below 16000 and reports whether there was one |
| OllamaWindows.RaiseProviders | internal/app_openclaw_files.go:139-163 | does so in every provider whose api is ollama, in any order of the keys |
| OllamaWindows.WindowsChange | internal/app_openclaw_files.go:128-165 | afterwards no window is low; the document changes exactly if one was |
| OllamaWindows.WindowsWithin | internal/app_openclaw_files.go:139-163 | other providers, other keys, the length of the list and all else of a model stay |
| OpenClawRemediation.PatchWindows | internal/app_openclaw_files.go:128-165 | the third patch on the document, changed exactly when the document changed |
| OpenClawRemediation.ApplyBuiltInRemediations | internal/app_openclaw_files.go:168-190 | reports exactly the patches that were needed at the start, and none exactly when the document is unchanged |
| OpenClawRemediation.PatchSettles | internal/app_openclaw_files.go:54-165 | a patch leaves its matter settled and changes the document only if it was not |
| OpenClawRemediation.PatchTwice | internal/app_openclaw_files.go:54-165 | each patch is idempotent |
| OpenClawRemediation.PatchFrame | internal/app_openclaw_files.go:54-165 | paths that neither lead to nor through a target are left alone |
| OpenClawRemediation.PatchesCommute | internal/app_openclaw_files.go:54-165 | any two patches commute |
| OpenClawRemediation.SameSetSameResult | internal/app_openclaw_files.go:54-165 | lists naming the same patches, in any order and repetition, give the same document |
| OpenClawDocument.AfterRemediations | internal/app_openclaw_files.go:168-190 | what the document holds after the three steps, key by key: origins, the enabled flag, the chat endpoint |
| OpenClawDocument.AfterWindows | internal/app_openclaw_files.go:128-165 | in the Ollama providers exactly the windows below 16000 become 16384, all else of every provider is as before |
| OpenClawDocument.AfterProxy | internal/app_openclaw_proxy.go:62-85 | both variables hold the trimmed proxy, or are gone with the env object they leave empty |
| AuditLog.TailJsonLines | internal/audit_store.go:333-356 | the shifting ring returns exactly the last min(limit, n) lines, an error if a line has a MiB or more |
| AuditLog.ListFile | internal/audit_store.go:135-168 | the records of those lines that can be read, are recent and are shown, in order |
| AuditLog.LinesAreTheFile | internal/audit_store.go:333-356 | the lines are the file, up to a missing last newline |
| AuditLog.AuditFile.PruneToRetention | internal/audit_store.go:232-296 | rewrites or removes the file as specified, and leaves it when a line is too long |
| AuditPruning.WrittenIsScanned | internal/audit_store.go:278-296 | rewritten lines scan back to themselves |
| AuditPruning.PrunedReadsBack | internal/audit_store.go:232-296 | the pruned file scans to exactly the lines kept |
| AuditPruning.KeptInOrder | internal/audit_store.go:258-273 | pruning keeps, trimmed and in order, exactly the lines that are unreadable or recent |
| AuditPruning.ShownInOrder | internal/audit_store.go:135-168 | the list holds, in order, the records of exactly the lines that are readable, recent and shown |
| AuditPruning.PruneTwice | internal/audit_store.go:232-296 | pruning is idempotent, and a later cutoff makes an earlier pruning irrelevant |
| AuditPruning.DisplaySurvivesPruning | internal/audit_store.go:135-168 | the list shown before pruning is the end of the list shown after it |
| AdminGuard.Directory.HandleCreate | internal/admin_users_handlers.go:137-216 | adds one enabled row, or refuses a malformed request or a taken name |
| AdminGuard.Directory.HandleUpdate | internal/admin_users_handlers.go:228-357 | changes role and state of one row, or refuses, in the order of the checks |
| AdminGuard.Directory.HandleDelete | internal/admin_users_handlers.go:401-449 | removes one row, or refuses the last administrator and the caller's own row |
| AdminGuard.GuardMeans | internal/admin_users_handlers.go:386-399 | the count is at most one exactly when this is the only enabled administrator and the runtime account is shadowed |
| AdminGuard.GuardIs | internal/admin_users_handlers.go:286-294 | the guard fires for the only enabled administrator whose runtime fallback is shadowed, and for no other row |
| AdminGuard.UpdateRefusedExactly | internal/admin_users_handlers.go:286-294 | an update is refused as removing the last administrator exactly when it would leave no way in |
| AdminGuard.DeleteRefusal | internal/admin_users_handlers.go:426-441 | no deletion that leaves no way in is allowed; the needless refusals are those of the last enabled administrator bearing the runtime name |
| AdminGuard.StepKeepsAccess | internal/admin_users_handlers.go:137-449 | a step keeps a way in exactly when it is not a create of a viewer with the runtime name while no administrator is enabled |
| AdminGuard.RunKeepsAccess | internal/admin_users_handlers.go:137-449 | someone can administer throughout a run exactly when no step is such a create |
| AdminGuard.ViewerNamedAdmin | internal/admin_users_handlers.go:200-210 | on an empty table such a create is accepted and ends all access |
| AdminGuard.NeedlessRefusal | internal/admin_users_handlers.go:426-441 | the only administrator row, named like the runtime account, cannot be deleted although the account would be back |

## Left out

- The network, Kubernetes, MySQL, Redis and the panels are oracles or maps of named objects; request binding, JSON and time parsing and URL parsing are parameters.
- HMAC and SHA are an uninterpreted function of key and message (for SCRAM of fixed length); TOTP arithmetic, password hashing and the choice of the SCRAM mechanism are not modelled.
- Strings are sequences of Unicode scalar values (token fields: bytes). `Text.Lower` is exact on ASCII and the two other characters whose lower case is ASCII; comparisons that ignore case compare lower-case forms.
- The JSON documents are values in a field that the methods reassign, not nested mutable maps, so aliasing inside a document is not modelled; a document that is JSON null is not either.
- Steps 4 and 5 of the remediations (legacy agent tools and elevated webchat) are not part of this model, nor is the rewriting of the document as text.
- `$(VAR)` expansion of container arguments by Kubernetes, and any shell syntax outside one simple command, are not modelled.
- KafkaExposure.Cluster.DeleteNodePortServicesRange: every delete call takes effect, while the source ignores their errors.
- In `SyncProtocol.dfy` the panel changes of a run count from its unlocking on; only the holder of the lock reads or changes panels meanwhile.
- Writes of the sync report always succeed and the process does not crash; sync from several processes is not modelled. What a panel does with a call is an oracle that sees the call's number, the panel and the request; panels change only by the calls of the sync, and an existing site or proxy is not altered by a call for it. JSON parsing of answers is a parameter.
- OpenClawRegistry.Server.HandleDeploy: the duplicate check and the registration are one step, so concurrent deployments are not modelled; nor are ClusterRoleBinding names and freely chosen Service names, which can coincide.
- BaotaTargets.MaskRoundTrip: is stated against the stored list; the masking itself, which the read handler does on a list it may share (internal/settings_runtime_handlers.go, lines 37-39), is a parameter.
- An absent and an empty list of panels in a save are not told apart beyond what the merge does.
- ResponseCacheRuns.Middleware.Handle: WriteString on the writer is not overridden by the source and not modelled; Redis failures only make entries unseen or unstored.
- GatewayLoops.GatewayHealthChatPing: the texts of results and errors are reduced to the outcome and the model and route that gave it.
- AuditLog.AuditFile.PruneToRetention: is one step, so appends during a rewrite are not modelled; file-system errors other than a missing file and the MySQL log are left out, and so is the choice of what the list shows, a parameter.
- AdminGuard.Directory.HandleCreate: email, permissions and address lists are one validity flag; names collate by a given function, and concurrent handlers are separate steps.
- Template editing, image resolution, and readiness and status texts are not part of this model.
