# sintls: the challenge-provisioning handlers, modelled in Dafny

sintls is a small Go web service that lets a principal obtain a certificate for a host name it
controls. The ACME client lego calls two endpoints with its "httpreq" RAW messages:

- **present** writes the principal's wanted targets for the host, points the host's DNS records
  at them through a pluggable DNS updater, and puts the DNS-01 challenge in place;
- **clean-up** removes the challenge.

Two admin-only endpoints create and (nominally) delete principals (authorizations).

This project models the request handlers of `sintls/routes.go` and the DNS-updater registry of
`dns/dns_providers.go`:

- `LegoPresent`, its helper `updateDNSRecords`, `LegoCleanup`, `CreateAuth` and `DeleteAuth`;
- the `DNSUpdater` interface's `SetRecord`;
- `NewDNSUpdaterByName`.

The handlers only sequence calls to collaborators. These are the database (transactions, the
host upsert, the authorization count and insert), the DNS updater, lego's challenge provider,
the permission query `CanUseHost` and bcrypt.

The model keeps that structure:

- an `Env` value says how each collaborator answers during one request;
- every call is appended to a trace;
- pure functions state which calls a handler makes, in which order, and what it answers;
- the class `Routes.Server` holds the stored state and carries out the handlers with methods
  whose postconditions tie the new state and the trace to those functions. The stored state is
  the committed hosts, the open transaction's view of them, the transaction's state, the
  authorizations, the DNS provider's records and the trace.

Files:

- `wrappers.dfy`: `Option`, standing for Go's nil-able results.
- `dns_providers.dfy`: record types and records, the provider's records as a map (`Zone`),
  `SetAll` (a sequence of successful SetRecord calls) and the registry.
- `records.dfy`: updateDNSRecords' record-selection and fail-fast rule.
- `routes.dfy`: the messages, the call trace, the handlers' specification functions and
  lemmas, and the class `Server`.
- `scenarios.dfy`: concrete scenarios on a fresh server.

The main results:

- Record selection. Once the host write succeeded, SetRecord for the A record is issued iff an A
  target is given; for the AAAA record iff an AAAA target is given and the A call, if any, did
  not fail; for the CNAME iff it is the only target given. The first failing SetRecord ends the
  sequence. A record is set at the provider iff its call was issued and succeeded
  (`Records.WrittenIsSucceedingPrefix`, and the zone postcondition of
  `Routes.Server.UpdateDNSRecords`).
- Permission gate. A request without a user or without CanUseHost's consent (401/403) begins no
  transaction and makes no provider or challenge call.
- Commit. The commit is issued iff the permission, the begin, the host write, every planned
  record and the challenge all succeeded. A 200 implies a commit.
- Late failures. A failure of Present or Commit answers 500 and stores no host. The records
  already set stay at the provider: there is no compensating step.
- Idempotence. Repeating a present leaves the provider's records as the first present did.
- Authorizations. Authorization names stay unique. CreateAuth adds exactly one non-admin
  authorization on 200, and refuses a name it has just added.
- DeleteAuth never commits and deletes nothing.
- Registry. Only the exact name "ovh" reaches the OVH constructor. Every other name is refused
  with an error that names it.

Points of the code the model follows as written:

- The handlers answer HTTP statuses only. `LegoPresent` and `LegoCleanup` answer 401, 403, 500
  for every failure past the permission gate, and 200. `CreateAuth` answers 401, 403 for a taken
  name or a failed count, 400 for a failed bcrypt hash, 500 for a failed insert, and 200.
- `DeleteAuth` begins a transaction, answers 200 and rolls the transaction back on return. Its
  deletion logic is commented out (`sintls/routes.go:199-222`), so nothing is deleted. When the
  begin fails it returns without writing a status or a body (`Status.Unwritten`); Gin then
  completes the request with its default 200 and an empty body.
- `updateDNSRecords` (`sintls/routes.go:23-51`) does not compile as written:
  - `err` is never declared and the function has no named result;
  - the transaction parameter is `db` but the body uses `tx`;
  - the parameter `dnsupdater` is a pointer to the interface `dns.DNSUpdater`, so
    `dnsupdater.SetRecord` (lines 33, 40 and 47) has no method to call.

  The model takes its evident intent: `tx` is the transaction passed in, each bare `return`
  returns the last error, and after the CNAME step its error is returned.
- A failed host write is rolled back twice: once in `updateDNSRecords` and once by its caller.
  The model keeps both Rollback calls in the trace. Rolling back a transaction that is already
  over changes nothing (`Routes.Server.TxRollback`).

## Model

| member | source | states |
|---|---|---|
| DnsProviders.NewDNSUpdaterByName | dns/dns_providers.go:16-23 | "ovh" yields exactly what the OVH constructor returns; any other name yields a nil updater and the error "unrecognized DNS provider: " followed by the name |
| DnsProviders.OnlyOvhYieldsUpdater | dns/dns_providers.go:17-21 | a non-nil updater comes only from the exact name "ovh" |
| DnsProviders.UnknownNameIgnoresOvh | dns/dns_providers.go:20-21 | for an unknown name the OVH constructor's outcome is irrelevant: it is never called |
| DnsProviders.UnknownNamesDistinctErrors | dns/dns_providers.go:21 | two different unknown names produce two different errors |
| DnsProviders.ExactMatchExamples | dns/dns_providers.go:17-21 | the match is exact: "OVH" and the empty name are refused |
| DnsProviders.SetAll | dns/dns_providers.go:9 | a run of successful SetRecord calls only adds or replaces records; it never removes one |
| DnsProviders.SetAllSnoc | dns/dns_providers.go:9 | one more successful SetRecord updates the provider's records at that record's name and type only |
| DnsProviders.SetAllKeeps | dns/dns_providers.go:9 | a record that no call addresses keeps its value or its absence |
| DnsProviders.SetAllHolds | dns/dns_providers.go:9 | when the calls address distinct records, each call's target is what the provider holds afterwards |
| DnsProviders.SetAllIdempotent | dns/dns_providers.go:9 | repeating the same SetRecord calls leaves the provider's records unchanged |
| Records.Plan | sintls/routes.go:32-49 | the A record is planned iff an A target is given, the AAAA record iff an AAAA target is given, the CNAME iff it is the only target; nothing is planned iff no target is given |
| Records.PlanShape | sintls/routes.go:32-49 | at most two records, all for the request's host with non-empty targets, only the requested ones, and A before AAAA |
| Records.CnameIsAlone | sintls/routes.go:46-49 | a planned CNAME never accompanies an address record |
| Records.PlanDistinctKeys | sintls/routes.go:32-49 | no two planned records address the same provider record |
| Records.Written | sintls/routes.go:32-45 | the records set never outnumber the planned ones |
| Records.WrittenIsSucceedingPrefix | sintls/routes.go:32-45 | the records set are the longest prefix of the plan whose calls succeed; the next planned call, if any, failed; all are set iff every call succeeds |
| Records.Attempted | sintls/routes.go:32-49 | the calls issued lie between the records set and the whole plan |
| Records.AttemptedStopsAtFirstFailure | sintls/routes.go:32-49 | the calls issued are a prefix of the plan, all but the last succeed, the sequence stops early only at a failure, and the plan succeeds iff all of it is issued and its last call succeeds |
| Records.FailFastOne | sintls/routes.go:46-48 | for a one-record plan: the call is issued, and the record is set iff the call succeeds |
| Records.FailFastTwo | sintls/routes.go:32-45 | for an A-then-AAAA plan: a failing A call stops before AAAA; otherwise both are issued and each is set iff its call and those before it succeed |
| Records.StepsFollowPlan | sintls/routes.go:32-50 | the three guarded steps, case by case, issue and set exactly what the fail-fast rule on the plan says |
| Routes.UpdateCalls | sintls/routes.go:23-30 | updateDNSRecords first upserts the host; when that fails it rolls back and does nothing else |
| Routes.UpdateCallsKinds | sintls/routes.go:23-50 | updateDNSRecords only upserts the host, rolls back a failed upsert, or sets records of the plan |
| Routes.UpdateSelection | sintls/routes.go:32-49 | once the host write succeeded, SetRecord for A is issued iff an A target is given; for AAAA iff given and the A call, if any, did not fail; for CNAME iff it is the only target; no target means no SetRecord (which issued records end up set is stated by Records.WrittenIsSucceedingPrefix and Routes.Server.UpdateDNSRecords) |
| Routes.UpdateCallsNoTxCalls | sintls/routes.go:23-51 | updateDNSRecords neither begins, presents a challenge nor commits |
| Routes.TxCalls | sintls/routes.go:82-103 | inside the transaction the last call is the commit when the update and the challenge succeeded, a rollback otherwise |
| Routes.TxCallsMembers | sintls/routes.go:82-103 | the challenge is presented iff the update succeeded; the commit is issued iff the challenge also succeeded |
| Routes.AdmittedCalls | sintls/routes.go:75-103 | past the gate LegoPresent first begins; a failed begin is its only call; otherwise its last call is the commit iff the update and the challenge succeeded, a rollback otherwise |
| Routes.PresentCalls | sintls/routes.go:54-104 | no call without a user; otherwise the permission query comes first, and there are calls past it iff the request is admitted |
| Routes.PresentCallsEnds | sintls/routes.go:62-103 | a refused request makes only the permission query; once a transaction is open, LegoPresent's last call is the commit iff every earlier step succeeded, a rollback otherwise |
| Routes.PresentZone | sintls/routes.go:82-103 | the provider's records after LegoPresent: none is removed, and a request refused at the gate or whose begin fails leaves them untouched |
| Routes.PresentStatus | sintls/routes.go:54-104 | 401 iff no user; 403 iff CanUseHost refuses; 200 iff begin, update, challenge and commit all succeed; 500 otherwise |
| Routes.PresentRefusedDoesNothing | sintls/routes.go:62-69 | a refused present answers 401 or 403 and makes no call but the permission query |
| Routes.PresentCommitsOnlyOnSuccess | sintls/routes.go:62-103 | begin iff admitted; the challenge iff admitted, begun and updated; the commit iff all of those and the challenge succeeded; 200 implies the commit |
| Routes.PresentSetsOnlyPlanned | sintls/routes.go:75-87 | every SetRecord LegoPresent issues is of the request's plan and happens only past the gate, the begin and the host write |
| Routes.PresentHappyPath | sintls/routes.go:54-104 | when everything succeeds: the permission query, begin, the upsert, every planned SetRecord, the challenge and the commit, in this order, and 200 |
| Routes.PresentLateFailureKeepsRecords | sintls/routes.go:89-103 | a failing challenge or commit answers 500 but every planned record stays at the provider |
| Routes.PresentZoneIdempotent | sintls/routes.go:82-87 | presenting the same request again leaves the provider's records as the first present did |
| Routes.CleanupCalls | sintls/routes.go:106-130 | LegoCleanup calls CleanUp exactly once when admitted, never otherwise, and makes no other call than the permission query |
| Routes.CleanupStatus | sintls/routes.go:106-130 | 401 iff no user; 403 iff CanUseHost refuses; 200 iff admitted and CleanUp succeeds; 500 otherwise |
| Routes.SameGate | sintls/routes.go:62-69 | LegoPresent and LegoCleanup refuse the same requests with the same status and the same calls |
| Routes.CreateAuthCalls | sintls/routes.go:137-172 | the insert is issued iff the caller is admin, the name is free, the count succeeded and bcrypt hashed the secret; only the count and the insert are called, the count first |
| Routes.CreateAuthStatus | sintls/routes.go:137-172 | 401 iff not admin; 403 iff the name exists or the count fails; 400 iff bcrypt fails; 200 iff the insert also succeeds |
| Routes.CreatedAuths | sintls/routes.go:163-170 | on 200 exactly one authorization is added, under its name, non-admin, holding bcrypt's hash; no existing one changes; otherwise nothing changes |
| Routes.CreateAuthRefusesDuplicate | sintls/routes.go:149-156 | after a 200, the same request answers 403 and changes nothing |
| Routes.DeleteAuthCalls | sintls/routes.go:178-225 | DeleteAuth never commits; it rolls back iff the caller is admin and the begin succeeded |
| Routes.DeleteAuthStatus | sintls/routes.go:178-225 | 401 iff not admin; no status written by the handler iff the begin fails (Gin's default 200 follows); 200 otherwise |
| Routes.Server.CheckCanUseHost | sintls/routes.go:66 | the permission query answers as the environment says and is traced |
| Routes.Server.DbBegin | sintls/routes.go:75-80 | a successful begin opens a transaction on the committed hosts |
| Routes.Server.TxRollback | sintls/routes.go:84 | an open transaction's writes are discarded; on a finished transaction nothing changes |
| Routes.Server.TxCommit | sintls/routes.go:98-103 | a successful commit makes the transaction's host writes durable; a failed one keeps none |
| Routes.Server.UpsertHost | sintls/routes.go:24-25 | the host's owner and targets are written inside the transaction |
| Routes.Server.ProviderSetRecord | sintls/routes.go:33 | a successful SetRecord makes the provider hold the record |
| Routes.Server.ChallengePresent | sintls/routes.go:90 | the challenge is presented and traced |
| Routes.Server.ChallengeCleanUp | sintls/routes.go:123 | the challenge is cleaned up and traced |
| Routes.Server.DbCountAuthorizations | sintls/routes.go:150-152 | the count of authorizations with that name is 1 if stored, 0 otherwise |
| Routes.Server.DbInsertAuthorization | sintls/routes.go:167 | a successful insert stores the authorization under its name |
| Routes.Server.UpdateDNSRecords | sintls/routes.go:23-51 | succeeds iff the host write and every planned SetRecord succeed; traces UpdateCalls; rolls back only a failed host write; sets exactly the records the fail-fast rule lets through |
| Routes.Server.SetRequestedRecords | sintls/routes.go:31-50 | the three guarded steps succeed iff every planned record is set, issue the calls the fail-fast rule allows, and set those records |
| Routes.Server.LegoPresent | sintls/routes.go:54-104 | keeps the server invariant; answers PresentStatus; traces PresentCalls; stores the host iff 200; the provider keeps whatever updateDNSRecords set; authorizations unchanged; the transaction ends committed, commit-failed or rolled back |
| Routes.Server.PresentTransaction | sintls/routes.go:75-103 | past the gate: 200 iff begin, update, challenge and commit succeed; the host is stored iff 200; a failed update or challenge rolls back |
| Routes.Server.LegoCleanup | sintls/routes.go:106-130 | answers CleanupStatus, traces CleanupCalls and changes no stored state |
| Routes.Server.CreateAuth | sintls/routes.go:137-172 | keeps names unique; answers CreateAuthStatus, traces CreateAuthCalls, and the authorizations become CreatedAuths |
| Routes.Server.DeleteAuth | sintls/routes.go:178-225 | keeps the invariant; answers DeleteAuthStatus; authorizations and hosts unchanged; the transaction is rolled back whenever it was begun |
| Scenarios.SelectionExamples | sintls/routes.go:32-49 | A "1.2.3.4" with CNAME "x" plans only the A record; CNAME "x" alone plans only the CNAME; no target plans nothing |
| Scenarios.ClaimPlan | sintls/routes.go:32-38 | the claim of a.example.com with A 9.9.9.9 plans and issues that one record |
| Scenarios.PresentSucceeds | sintls/routes.go:54-104 | a first claim of a.example.com with A 9.9.9.9 stores the host, sets the A record, presents once, commits, and answers 200 |
| Scenarios.PresentChallengeFails | sintls/routes.go:89-96 | the same claim with a failing challenge answers 500 and stores no host, while the A record stays at the provider |
| Scenarios.PresentRefused | sintls/routes.go:66-69 | a refused principal gets 403 and nothing but the permission query is called |
| Scenarios.CleanupSucceeds | sintls/routes.go:118-129 | clean-up of an owned domain calls CleanUp once, answers 200 and changes no host |

## Left out

- JSON binding of the request bodies (`ShouldBindJSON`, 400 on a malformed body) and Gin's
  context lookups (`MustGet`): every handler receives its decoded message and its collaborators.
- The response text and logging: only the status code is modelled.
- The body of `CanUseHost`: it is not part of this model, and its answer is a parameter.
- The body of `CreateOrUpdateHost`: it is not part of this model, and is modelled as an upsert
  of the host by name.
- The go-pg database internals: begin, commit, rollback, count and insert are modelled by their
  effect on the stored maps, with their failures as parameters.
- bcrypt: the hash, or its failure, is a parameter.
- lego's challenge provider: Present and CleanUp are traced calls whose failures are
  parameters.
- The OVH DNS provider: `ovh.NewDNSProvider` is not part of this model. Its outcome is a
  parameter of `NewDNSUpdaterByName`, and SetRecord's effect is an update of the provider's
  record map.
- The `DNSUpdater` methods `RemoveRecords`, `ExtractRecordName`, `ExtractAuthZone` and
  `Refresh`: no handler calls them.
- The commented-out cascade delete in `DeleteAuth` (`sintls/routes.go:199-222`): it is not code.
- Concurrency between requests: each handler runs alone on the server.
- Routes.Server.CreateAuth and Routes.Server.DeleteAuth: the caller is required to be a
  non-nil user, because Go dereferences it without a check and would panic otherwise.
- Routes.Server.DbCountAuthorizations: the query counts by name, and the stored map is keyed by
  name. Its result is therefore 0 or 1; several rows with one name are not modelled.
- DnsProviders.SetAll: its own contract only says that no record is removed. What it sets is
  stated by the lemmas SetAllSnoc, SetAllKeeps and SetAllHolds.
