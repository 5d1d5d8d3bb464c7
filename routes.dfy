/**
 * The request handlers of sintls/routes.go: LegoPresent and LegoCleanup (the endpoints the
 * ACME client lego calls with its "httpreq" RAW messages), the helper updateDNSRecords, and the
 * admin-only handlers CreateAuth and DeleteAuth.
 *
 * The handlers only sequence calls to collaborators: the database (transactions, host upsert,
 * authorization count and insert), the DNS updater (SetRecord), the lego challenge provider
 * (Present, CleanUp), the permission query CanUseHost and bcrypt.  Each collaborator's outcome
 * is given by an `Env` value; each call is appended to a trace.  The first half of this module
 * states, as functions of the request and the environment, which calls a handler makes, in
 * which order, and what it answers; the class `Server` then carries out the handlers on the
 * stored state and is proved to follow those functions.
 */
module Routes {
  import opened Wrappers
  import opened DnsProviders
  import Records

  /** The JSON body lego sends for a DNS-01 challenge, with the host's wanted targets. */
  datatype LegoMessage = LegoMessage(
    domain: string, token: string, keyAuth: string,
    targetA: string, targetAAAA: string, targetCNAME: string)

  /** A principal: its unique name, its hashed secret and whether it is an administrator. */
  datatype Authorization = Authorization(name: string, secret: string, admin: bool)

  /** The stored intent for one host name: its owner and the targets last asked for. */
  datatype Host = Host(owner: string, targetA: string, targetAAAA: string, targetCNAME: string)

  datatype CreateAuthMessage = CreateAuthMessage(name: string, secret: string)

  datatype DeleteAuthMessage = DeleteAuthMessage(name: string)

  /**
   * The HTTP status a handler answers with.  Unwritten: the handler returns without writing
   * a status or a body; Gin then completes the request with its default 200 and an empty body,
   * so the client still gets an HTTP reply.
   */
  datatype Status = OK | BadRequest | Unauthorized | Forbidden | InternalServerError | Unwritten

  /** The state of the request's database transaction. */
  datatype TxState = NoTx | Open | Committed | CommitFailed | RolledBack

  /** The calls the handlers make to their collaborators, as they appear in the trace. */
  datatype Call =
    | CanUseHost(user: string, domain: string)
    | Begin
    | CreateOrUpdateHost(domain: string, targetA: string, targetAAAA: string, targetCNAME: string)
    | SetRecord(rec: Record)
    | Present(domain: string, token: string, keyAuth: string)
    | CleanUp(domain: string, token: string, keyAuth: string)
    | Commit
    | Rollback
    | CountAuthorizations(name: string)
    | InsertAuthorization(name: string)

  /**
   * What the collaborators answer during one request: the permission decision CanUseHost,
   * whether each database, DNS-updater and challenge call fails, and bcrypt's hash of a secret
   * (None when bcrypt fails).
   */
  datatype Env = Env(
    canUseHost: (Authorization, string) -> bool,
    beginFails: bool,
    hostFails: bool,
    setRecordFails: Record -> bool,
    presentFails: bool,
    cleanUpFails: bool,
    commitFails: bool,
    countFails: bool,
    hashPassword: string -> Option<string>,
    insertFails: bool)


  /* ---------------------------------------------------------------------------------------- */
  /* updateDNSRecords                                                                           */

  /** The DNS records a present request asks for, in the order updateDNSRecords sets them. */
  function PlanOf(req: LegoMessage): seq<Record> {
    Records.Plan(req.domain, req.targetA, req.targetAAAA, req.targetCNAME)
  }

  function HostOf(user: Authorization, req: LegoMessage): Host {
    Host(user.name, req.targetA, req.targetAAAA, req.targetCNAME)
  }

  function UpsertCall(req: LegoMessage): Call {
    CreateOrUpdateHost(req.domain, req.targetA, req.targetAAAA, req.targetCNAME)
  }

  function SetRecordCalls(recs: seq<Record>): seq<Call> {
    seq(|recs|, i requires 0 <= i < |recs| => SetRecord(recs[i]))
  }

  lemma AppendAssoc(x: seq<Call>, y: seq<Call>, z: seq<Call>)
    ensures x + (y + z) == (x + y) + z
  {
  }

  lemma SetRecordCallsSnoc(recs: seq<Record>, r: Record)
    ensures SetRecordCalls(recs + [r]) == SetRecordCalls(recs) + [SetRecord(r)]
  {
  }

  lemma SetRecordCallsMembers(recs: seq<Record>)
    ensures forall c :: c in SetRecordCalls(recs) <==> c.SetRecord? && c.rec in recs
  {
    var calls := SetRecordCalls(recs);
    forall c: Call | c.SetRecord? && c.rec in recs
      ensures c in calls
    {
      var i :| 0 <= i < |recs| && recs[i] == c.rec;
      assert calls[i] == c;
    }
  }

  /** updateDNSRecords returns nil: the host intent is written and every planned record is set. */
  predicate UpdateSucceeds(env: Env, req: LegoMessage) {
    !env.hostFails && Records.AllSucceed(PlanOf(req), env.setRecordFails)
  }

  /**
   * The calls updateDNSRecords makes: the host upsert first; when it fails, the rollback and
   * nothing else; otherwise the SetRecord calls the fail-fast rule lets through.
   */
  function UpdateCalls(env: Env, req: LegoMessage): (calls: seq<Call>)
    ensures |calls| > 0 && calls[0] == UpsertCall(req)
    ensures env.hostFails ==> calls == [UpsertCall(req), Rollback]
  {
    [UpsertCall(req)] +
    if env.hostFails then [Rollback]
    else SetRecordCalls(Records.Attempted(PlanOf(req), env.setRecordFails))
  }

  /** updateDNSRecords only writes the host, sets planned records, or rolls back a failed write. */
  lemma UpdateCallsKinds(env: Env, req: LegoMessage)
    ensures forall c :: c in UpdateCalls(env, req) ==>
              c == UpsertCall(req) || (c == Rollback && env.hostFails) ||
              (c.SetRecord? && !env.hostFails && c.rec in PlanOf(req))
  {
    Records.AttemptedStopsAtFirstFailure(PlanOf(req), env.setRecordFails);
    SetRecordCallsMembers(Records.Attempted(PlanOf(req), env.setRecordFails));
  }

  /**
   * The record-selection and fail-fast rule: once the host intent is written, the A record is
   * set iff an A target is given, the AAAA record iff an AAAA target is given and the A record
   * (if any) did not fail, and the CNAME iff it is the only target given.
   */
  lemma UpdateSelection(env: Env, req: LegoMessage)
    ensures SetRecord(Record(req.domain, A, req.targetA)) in UpdateCalls(env, req)
            <==> !env.hostFails && req.targetA != ""
    ensures SetRecord(Record(req.domain, AAAA, req.targetAAAA)) in UpdateCalls(env, req)
            <==> !env.hostFails && req.targetAAAA != "" &&
                 (req.targetA == "" || !env.setRecordFails(Record(req.domain, A, req.targetA)))
    ensures SetRecord(Record(req.domain, CNAME, req.targetCNAME)) in UpdateCalls(env, req)
            <==> !env.hostFails && req.targetA == "" && req.targetAAAA == "" && req.targetCNAME != ""
    ensures req.targetA == "" && req.targetAAAA == "" && req.targetCNAME == "" ==>
              forall c :: c in UpdateCalls(env, req) ==> !c.SetRecord?
  {
    var fails := env.setRecordFails;
    var ra := Record(req.domain, A, req.targetA);
    var r4 := Record(req.domain, AAAA, req.targetAAAA);
    var rc := Record(req.domain, CNAME, req.targetCNAME);
    var plan := PlanOf(req);
    var t := Records.Attempted(plan, fails);
    var calls := UpdateCalls(env, req);
    if !env.hostFails {
      SetRecordCallsMembers(t);
      assert forall c :: c in calls <==> c == UpsertCall(req) || c in SetRecordCalls(t);
      if req.targetA != "" && req.targetAAAA != "" {
        assert plan == [ra, r4];
        Records.FailFastTwo(ra, r4, fails);
      } else if req.targetA != "" {
        assert plan == [ra];
        Records.FailFastOne(ra, fails);
      } else if req.targetAAAA != "" {
        assert plan == [r4];
        Records.FailFastOne(r4, fails);
      } else if req.targetCNAME != "" {
        assert plan == [rc];
        Records.FailFastOne(rc, fails);
      } else {
        assert plan == [];
      }
    }
  }

  /* ---------------------------------------------------------------------------------------- */
  /* LegoPresent and LegoCleanup                                                                */

  /** The calls the permission gate makes: none without a user, else the CanUseHost query. */
  function GateCalls(user: Option<Authorization>, domain: string): seq<Call> {
    if user.None? then [] else [CanUseHost(user.value.name, domain)]
  }

  /** A user is given and CanUseHost allows it the domain. */
  predicate Admitted(env: Env, user: Option<Authorization>, domain: string) {
    user.Some? && env.canUseHost(user.value, domain)
  }

  /** Every step of LegoPresent before the commit succeeds. */
  predicate PresentSucceeds(env: Env, user: Option<Authorization>, req: LegoMessage) {
    Admitted(env, user, req.domain) && !env.beginFails && UpdateSucceeds(env, req) && !env.presentFails
  }

  /**
   * The calls LegoPresent makes once its transaction is open; they end with the commit when
   * everything succeeded and with a rollback otherwise.
   */
  function TxCalls(env: Env, req: LegoMessage): (calls: seq<Call>)
    ensures |calls| > 0
    ensures calls[|calls| - 1] == if UpdateSucceeds(env, req) && !env.presentFails then Commit else Rollback
  {
    UpdateCalls(env, req) +
    if !UpdateSucceeds(env, req) then [Rollback]
    else [Present(req.domain, req.token, req.keyAuth)] + if env.presentFails then [Rollback] else [Commit]
  }

  /**
   * The calls LegoPresent makes past the gate: the begin, then the transaction's calls. A failed
   * begin is the only call; otherwise the last call is the commit exactly when the update and the
   * challenge succeeded, a rollback otherwise.
   */
  function AdmittedCalls(env: Env, req: LegoMessage): (calls: seq<Call>)
    ensures |calls| > 0 && calls[0] == Begin
    ensures |calls| == 1 <==> env.beginFails
    ensures !env.beginFails ==>
              calls[|calls| - 1] == if UpdateSucceeds(env, req) && !env.presentFails then Commit else Rollback
  {
    [Begin] + if env.beginFails then [] else TxCalls(env, req)
  }

  /**
   * The calls LegoPresent makes: none without a user, the permission query first otherwise, and
   * calls past the permission query exactly when the request is admitted.
   */
  function PresentCalls(env: Env, user: Option<Authorization>, req: LegoMessage): (calls: seq<Call>)
    ensures |calls| == 0 <==> user.None?
    ensures user.Some? ==> calls[0] == CanUseHost(user.value.name, req.domain)
    ensures |calls| > 1 <==> Admitted(env, user, req.domain)
  {
    GateCalls(user, req.domain) + if !Admitted(env, user, req.domain) then [] else AdmittedCalls(env, req)
  }

  /**
   * A refused request makes only the gate's call; once a transaction is open, LegoPresent's
   * last call is the commit when every step before it succeeded and a rollback otherwise.
   */
  lemma PresentCallsEnds(env: Env, user: Option<Authorization>, req: LegoMessage)
    ensures !Admitted(env, user, req.domain) ==> PresentCalls(env, user, req) == GateCalls(user, req.domain)
    ensures var calls := PresentCalls(env, user, req);
            Admitted(env, user, req.domain) && !env.beginFails ==>
              |calls| > 0 && calls[|calls| - 1] == if PresentSucceeds(env, user, req) then Commit else Rollback
  {
  }

  /** TxCalls step by step: updateDNSRecords' calls, the challenge, the commit or a rollback. */
  lemma TxCallsSteps(env: Env, req: LegoMessage)
    ensures !UpdateSucceeds(env, req) ==> TxCalls(env, req) == UpdateCalls(env, req) + [Rollback]
    ensures var present := UpdateCalls(env, req) + [Present(req.domain, req.token, req.keyAuth)];
            UpdateSucceeds(env, req) ==>
              TxCalls(env, req) == present + (if env.presentFails then [Rollback] else [Commit])
  {
  }

  /** The status LegoPresent answers with. */
  function PresentStatus(env: Env, user: Option<Authorization>, req: LegoMessage): (s: Status)
    ensures s == Unauthorized <==> user.None?
    ensures s == Forbidden <==> user.Some? && !env.canUseHost(user.value, req.domain)
    ensures s == OK <==> PresentSucceeds(env, user, req) && !env.commitFails
    ensures s == Unauthorized || s == Forbidden || s == InternalServerError || s == OK
  {
    if user.None? then Unauthorized
    else if !env.canUseHost(user.value, req.domain) then Forbidden
    else if env.beginFails || !UpdateSucceeds(env, req) || env.presentFails || env.commitFails
    then InternalServerError
    else OK
  }

  /**
   * The provider's records after LegoPresent: whatever updateDNSRecords set stays set. No record
   * is removed, and a request refused at the gate or at the begin leaves the provider untouched.
   */
  function PresentZone(env: Env, user: Option<Authorization>, req: LegoMessage, zone: Zone): (z: Zone)
    ensures zone.Keys <= z.Keys
    ensures !Admitted(env, user, req.domain) || env.beginFails ==> z == zone
  {
    if Admitted(env, user, req.domain) && !env.beginFails && !env.hostFails
    then SetAll(zone, Records.Written(PlanOf(req), env.setRecordFails))
    else zone
  }

  /**
   * Without a user (401) or without CanUseHost's consent (403), LegoPresent begins no
   * transaction, sets no record and does not present the challenge.
   */
  lemma PresentRefusedDoesNothing(env: Env, user: Option<Authorization>, req: LegoMessage)
    requires !Admitted(env, user, req.domain)
    ensures PresentStatus(env, user, req) == (if user.None? then Unauthorized else Forbidden)
    ensures forall c :: c in PresentCalls(env, user, req) ==> c.CanUseHost?
  {
  }

  /** updateDNSRecords neither begins, presents a challenge nor commits. */
  lemma UpdateCallsNoTxCalls(env: Env, req: LegoMessage)
    ensures Begin !in UpdateCalls(env, req)
    ensures Present(req.domain, req.token, req.keyAuth) !in UpdateCalls(env, req)
    ensures Commit !in UpdateCalls(env, req)
  {
  }

  /**
   * Inside the transaction, the challenge is presented only after the host and every planned
   * record were written, and the commit is issued only when the challenge was presented too.
   */
  lemma TxCallsMembers(env: Env, req: LegoMessage)
    ensures Begin !in TxCalls(env, req)
    ensures Present(req.domain, req.token, req.keyAuth) in TxCalls(env, req) <==> UpdateSucceeds(env, req)
    ensures Commit in TxCalls(env, req) <==> UpdateSucceeds(env, req) && !env.presentFails
  {
    UpdateCallsNoTxCalls(env, req);
  }

  /**
   * The transaction is begun only past the gate, the challenge is presented only after the
   * host and every planned record were written, and the commit is issued only when the
   * challenge was presented too.
   */
  lemma PresentCommitsOnlyOnSuccess(env: Env, user: Option<Authorization>, req: LegoMessage)
    ensures Begin in PresentCalls(env, user, req) <==> Admitted(env, user, req.domain)
    ensures Present(req.domain, req.token, req.keyAuth) in PresentCalls(env, user, req)
            <==> Admitted(env, user, req.domain) && !env.beginFails && UpdateSucceeds(env, req)
    ensures Commit in PresentCalls(env, user, req) <==> PresentSucceeds(env, user, req)
    ensures PresentStatus(env, user, req) == OK ==> Commit in PresentCalls(env, user, req)
  {
    TxCallsMembers(env, req);
  }

  /** Past the gate and the begin, only records of the request's plan are set. */
  lemma PresentSetsOnlyPlanned(env: Env, user: Option<Authorization>, req: LegoMessage, r: Record)
    requires SetRecord(r) in PresentCalls(env, user, req)
    ensures Admitted(env, user, req.domain) && !env.beginFails && !env.hostFails
    ensures r in PlanOf(req)
  {
    UpdateCallsKinds(env, req);
    if Admitted(env, user, req.domain) && !env.beginFails {
      var update := UpdateCalls(env, req);
      assert SetRecord(r) in update by {
        assert PresentCalls(env, user, req) == GateCalls(user, req.domain) + [Begin] + TxCalls(env, req);
        assert TxCalls(env, req) == update + TxCalls(env, req)[|update|..];
      }
    }
  }

  /**
   * When every collaborator succeeds, LegoPresent checks the permission, begins the transaction,
   * writes the host intent, sets the planned records, presents the challenge and commits, in
   * this order and once each, and answers 200.
   */
  lemma PresentHappyPath(env: Env, user: Authorization, req: LegoMessage)
    requires PresentSucceeds(env, Some(user), req) && !env.commitFails
    ensures PresentCalls(env, Some(user), req) ==
            [CanUseHost(user.name, req.domain), Begin, UpsertCall(req)] + SetRecordCalls(PlanOf(req)) +
            [Present(req.domain, req.token, req.keyAuth), Commit]
    ensures PresentStatus(env, Some(user), req) == OK
  {
    var plan := PlanOf(req);
    Records.AttemptedStopsAtFirstFailure(plan, env.setRecordFails);
    assert Records.Attempted(plan, env.setRecordFails) == plan;
    var records := SetRecordCalls(plan);
    var tail := [Present(req.domain, req.token, req.keyAuth), Commit];
    assert TxCalls(env, req) == ([UpsertCall(req)] + records) + tail;
    assert AdmittedCalls(env, req) == [Begin] + (([UpsertCall(req)] + records) + tail);
    AppendAssoc([CanUseHost(user.name, req.domain), Begin], [UpsertCall(req)] + records, tail);
    AppendAssoc([CanUseHost(user.name, req.domain), Begin], [UpsertCall(req)], records);
  }

  /**
   * A failure of Present or Commit after the records were set answers 500 and keeps nothing in
   * the database, but the records stay at the provider: the saga has no compensating step.
   */
  lemma PresentLateFailureKeepsRecords(env: Env, user: Authorization, req: LegoMessage, zone: Zone)
    requires Admitted(env, Some(user), req.domain) && !env.beginFails && UpdateSucceeds(env, req)
    requires env.presentFails || env.commitFails
    ensures PresentStatus(env, Some(user), req) == InternalServerError
    ensures forall r :: r in PlanOf(req) ==>
              r.Key() in PresentZone(env, Some(user), req, zone) &&
              PresentZone(env, Some(user), req, zone)[r.Key()] == r.target
  {
    var plan := PlanOf(req);
    Records.WrittenIsSucceedingPrefix(plan, env.setRecordFails);
    assert Records.Written(plan, env.setRecordFails) == plan;
    assert PresentZone(env, Some(user), req, zone) == SetAll(zone, plan);
    Records.PlanDistinctKeys(req.domain, req.targetA, req.targetAAAA, req.targetCNAME);
    forall r | r in plan
      ensures r.Key() in SetAll(zone, plan) && SetAll(zone, plan)[r.Key()] == r.target
    {
      var i :| 0 <= i < |plan| && plan[i] == r;
      SetAllHolds(zone, plan, i);
    }
  }

  /**
   * Presenting the same request again, with the collaborators answering the same way, leaves
   * the provider's records as the first present left them.
   */
  lemma PresentZoneIdempotent(env: Env, user: Option<Authorization>, req: LegoMessage, zone: Zone)
    ensures PresentZone(env, user, req, PresentZone(env, user, req, zone)) == PresentZone(env, user, req, zone)
  {
    if Admitted(env, user, req.domain) && !env.beginFails && !env.hostFails {
      var plan := PlanOf(req);
      var w := Records.Written(plan, env.setRecordFails);
      Records.WrittenIsSucceedingPrefix(plan, env.setRecordFails);
      Records.PlanDistinctKeys(req.domain, req.targetA, req.targetAAAA, req.targetCNAME);
      assert DistinctKeys(w) by {
        forall i, j | 0 <= i < j < |w| ensures w[i].Key() != w[j].Key() {
          assert w[i] == plan[i] && w[j] == plan[j];
        }
      }
      SetAllIdempotent(zone, w);
    }
  }

  /** The calls LegoCleanup makes: after the gate, CleanUp once, and nothing transactional. */
  function CleanupCalls(env: Env, user: Option<Authorization>, req: LegoMessage): (calls: seq<Call>)
    ensures multiset(calls)[CleanUp(req.domain, req.token, req.keyAuth)]
            == if Admitted(env, user, req.domain) then 1 else 0
    ensures forall c :: c in calls ==> c.CanUseHost? || c.CleanUp?
  {
    GateCalls(user, req.domain) +
    if Admitted(env, user, req.domain) then [CleanUp(req.domain, req.token, req.keyAuth)] else []
  }

  /** The status LegoCleanup answers with. */
  function CleanupStatus(env: Env, user: Option<Authorization>, req: LegoMessage): (s: Status)
    ensures s == Unauthorized <==> user.None?
    ensures s == Forbidden <==> user.Some? && !env.canUseHost(user.value, req.domain)
    ensures s == OK <==> Admitted(env, user, req.domain) && !env.cleanUpFails
    ensures s == Unauthorized || s == Forbidden || s == InternalServerError || s == OK
  {
    if user.None? then Unauthorized
    else if !env.canUseHost(user.value, req.domain) then Forbidden
    else if env.cleanUpFails then InternalServerError
    else OK
  }

  /** LegoPresent and LegoCleanup apply the same gate: they refuse the same requests alike. */
  lemma SameGate(env: Env, user: Option<Authorization>, present: LegoMessage, cleanup: LegoMessage)
    requires present.domain == cleanup.domain
    ensures PresentStatus(env, user, present) == Unauthorized <==> CleanupStatus(env, user, cleanup) == Unauthorized
    ensures PresentStatus(env, user, present) == Forbidden <==> CleanupStatus(env, user, cleanup) == Forbidden
    ensures !Admitted(env, user, present.domain) ==>
              PresentCalls(env, user, present) == CleanupCalls(env, user, cleanup)
  {
  }

  /* ---------------------------------------------------------------------------------------- */
  /* CreateAuth and DeleteAuth                                                                  */

  /** The name is free, the count query did not fail and bcrypt hashed the secret. */
  predicate CanInsert(env: Env, msg: CreateAuthMessage, auths: map<string, Authorization>) {
    msg.name !in auths && !env.countFails && env.hashPassword(msg.secret).Some?
  }

  /** The calls CreateAuth makes. */
  function CreateAuthCalls(env: Env, user: Authorization, msg: CreateAuthMessage,
                           auths: map<string, Authorization>): (calls: seq<Call>)
    ensures InsertAuthorization(msg.name) in calls <==> user.admin && CanInsert(env, msg, auths)
    ensures forall c :: c in calls ==> c == CountAuthorizations(msg.name) || c == InsertAuthorization(msg.name)
    ensures user.admin ==> |calls| > 0 && calls[0] == CountAuthorizations(msg.name)
  {
    if !user.admin then []
    else [CountAuthorizations(msg.name)] +
         if CanInsert(env, msg, auths) then [InsertAuthorization(msg.name)] else []
  }

  /** The status CreateAuth answers with. */
  function CreateAuthStatus(env: Env, user: Authorization, msg: CreateAuthMessage,
                            auths: map<string, Authorization>): (s: Status)
    ensures s == Unauthorized <==> !user.admin
    ensures s == Forbidden <==> user.admin && (msg.name in auths || env.countFails)
    ensures s == BadRequest <==>
              user.admin && msg.name !in auths && !env.countFails && env.hashPassword(msg.secret).None?
    ensures s == OK <==> user.admin && CanInsert(env, msg, auths) && !env.insertFails
    ensures s != Unwritten
  {
    if !user.admin then Unauthorized
    else if msg.name in auths || env.countFails then Forbidden
    else if env.hashPassword(msg.secret).None? then BadRequest
    else if env.insertFails then InternalServerError
    else OK
  }

  /**
   * The authorizations after CreateAuth: on 200 exactly one more, named as asked, non-admin,
   * holding bcrypt's hash; otherwise the same.
   */
  function CreatedAuths(env: Env, user: Authorization, msg: CreateAuthMessage,
                        auths: map<string, Authorization>): (r: map<string, Authorization>)
    ensures CreateAuthStatus(env, user, msg, auths) != OK ==> r == auths
    ensures CreateAuthStatus(env, user, msg, auths) == OK ==>
              r.Keys == auths.Keys + {msg.name} && |r| == |auths| + 1 &&
              r[msg.name] == Authorization(msg.name, env.hashPassword(msg.secret).value, false)
    ensures forall n :: n in auths ==> n in r && r[n] == auths[n]
  {
    if CreateAuthStatus(env, user, msg, auths) == OK
    then auths[msg.name := Authorization(msg.name, env.hashPassword(msg.secret).value, false)]
    else auths
  }

  /**
   * Once CreateAuth has added a name, asking for the same name again is refused with 403 and
   * changes nothing, whatever the collaborators answer the second time.
   */
  lemma CreateAuthRefusesDuplicate(env: Env, env2: Env, user: Authorization, msg: CreateAuthMessage,
                                   auths: map<string, Authorization>)
    requires CreateAuthStatus(env, user, msg, auths) == OK
    ensures var after := CreatedAuths(env, user, msg, auths);
            CreateAuthStatus(env2, user, msg, after) == Forbidden &&
            CreatedAuths(env2, user, msg, after) == after &&
            CreateAuthCalls(env2, user, msg, after) == [CountAuthorizations(msg.name)]
  {
  }

  /** The calls DeleteAuth makes: it begins a transaction and only ever rolls it back. */
  function DeleteAuthCalls(env: Env, user: Authorization): (calls: seq<Call>)
    ensures Commit !in calls
    ensures !user.admin ==> calls == []
    ensures Rollback in calls <==> user.admin && !env.beginFails
  {
    if !user.admin then []
    else if env.beginFails then [Begin]
    else [Begin, Rollback]
  }

  /** The status DeleteAuth answers with. */
  function DeleteAuthStatus(env: Env, user: Authorization): (s: Status)
    ensures s == Unauthorized <==> !user.admin
    ensures s == OK <==> user.admin && !env.beginFails
    ensures s == Unwritten <==> user.admin && env.beginFails
  {
    if !user.admin then Unauthorized
    else if env.beginFails then Unwritten
    else OK
  }

  /* ---------------------------------------------------------------------------------------- */
  /* The handlers on the stored state                                                           */

  /**
   * The state the handlers act on: the committed host intents, the open transaction's view of
   * them, the transaction's state, the authorizations keyed by name, the records held by the DNS
   * provider and the trace of collaborator calls.
   */
  class Server {
    var hosts: map<string, Host>
    var pending: map<string, Host>
    var tx: TxState
    var auths: map<string, Authorization>
    var zone: Zone
    var trace: seq<Call>

    /** Authorization names are unique: each is stored under its own name. */
    ghost predicate NamesAreKeys()
      reads this`auths
    {
      forall n :: n in auths ==> auths[n].name == n
    }

    /** Between requests: names are unique and no transaction is left open. */
    ghost predicate Valid()
      reads this`auths, this`tx, this`pending, this`hosts
    {
      NamesAreKeys() && tx != Open && pending == hosts
    }

    constructor (auths0: map<string, Authorization>, hosts0: map<string, Host>, zone0: Zone)
      requires forall n :: n in auths0 ==> auths0[n].name == n
      ensures Valid()
      ensures auths == auths0 && hosts == hosts0 && zone == zone0 && trace == [] && tx == NoTx
    {
      auths, hosts, pending, zone := auths0, hosts0, hosts0, zone0;
      trace, tx := [], NoTx;
    }

    /** user.CanUseHost(db, domain): the permission query. */
    method CheckCanUseHost(env: Env, user: Authorization, domain: string) returns (ok: bool)
      modifies this`trace
      ensures ok == env.canUseHost(user, domain)
      ensures trace == old(trace) + [CanUseHost(user.name, domain)]
    {
      trace := trace + [CanUseHost(user.name, domain)];
      ok := env.canUseHost(user, domain);
    }

    /** db.Begin(): on success a transaction opens on the committed hosts. */
    method DbBegin(env: Env) returns (ok: bool)
      requires tx != Open
      modifies this`trace, this`tx, this`pending
      ensures ok == !env.beginFails
      ensures trace == old(trace) + [Begin]
      ensures tx == if ok then Open else NoTx
      ensures pending == if ok then hosts else old(pending)
    {
      trace := trace + [Begin];
      ok := !env.beginFails;
      if ok {
        tx, pending := Open, hosts;
      } else {
        tx := NoTx;
      }
    }

    /**
     * tx.Rollback(): discards an open transaction.  On a transaction that is already over it
     * changes nothing, so rolling back twice is the same as rolling back once.
     */
    method TxRollback()
      modifies this`trace, this`tx, this`pending
      ensures trace == old(trace) + [Rollback]
      ensures tx == if old(tx) == Open then RolledBack else old(tx)
      ensures pending == if old(tx) == Open then hosts else old(pending)
    {
      trace := trace + [Rollback];
      if tx == Open {
        tx, pending := RolledBack, hosts;
      }
    }

    /** tx.Commit(): makes the transaction's writes durable, or on failure none of them. */
    method TxCommit(env: Env) returns (ok: bool)
      requires tx == Open
      modifies this`trace, this`tx, this`pending, this`hosts
      ensures ok == !env.commitFails
      ensures trace == old(trace) + [Commit]
      ensures tx == if ok then Committed else CommitFailed
      ensures hosts == if ok then old(pending) else old(hosts)
      ensures pending == hosts
    {
      trace := trace + [Commit];
      ok := !env.commitFails;
      if ok {
        tx, hosts := Committed, pending;
      } else {
        tx, pending := CommitFailed, hosts;
      }
    }

    /** user.CreateOrUpdateHost(tx, ...): upserts the host intent inside the transaction. */
    method UpsertHost(env: Env, user: Authorization, req: LegoMessage) returns (ok: bool)
      requires tx == Open
      modifies this`trace, this`pending
      ensures ok == !env.hostFails
      ensures trace == old(trace) + [UpsertCall(req)]
      ensures pending == if ok then old(pending)[req.domain := HostOf(user, req)] else old(pending)
    {
      trace := trace + [UpsertCall(req)];
      ok := !env.hostFails;
      if ok {
        pending := pending[req.domain := HostOf(user, req)];
      }
    }

    /** dnsupdater.SetRecord(fqdn, fieldtype, target): on success the provider holds the record. */
    method ProviderSetRecord(env: Env, rec: Record) returns (ok: bool)
      modifies this`trace, this`zone
      ensures ok == !env.setRecordFails(rec)
      ensures trace == old(trace) + [SetRecord(rec)]
      ensures zone == if ok then old(zone)[rec.Key() := rec.target] else old(zone)
    {
      trace := trace + [SetRecord(rec)];
      ok := !env.setRecordFails(rec);
      if ok {
        zone := zone[rec.Key() := rec.target];
      }
    }

    /** provider.Present(domain, token, keyAuth): the DNS-01 challenge is put in place. */
    method ChallengePresent(env: Env, req: LegoMessage) returns (ok: bool)
      modifies this`trace
      ensures ok == !env.presentFails
      ensures trace == old(trace) + [Present(req.domain, req.token, req.keyAuth)]
    {
      trace := trace + [Present(req.domain, req.token, req.keyAuth)];
      ok := !env.presentFails;
    }

    /** provider.CleanUp(domain, token, keyAuth): the DNS-01 challenge is removed. */
    method ChallengeCleanUp(env: Env, req: LegoMessage) returns (ok: bool)
      modifies this`trace
      ensures ok == !env.cleanUpFails
      ensures trace == old(trace) + [CleanUp(req.domain, req.token, req.keyAuth)]
    {
      trace := trace + [CleanUp(req.domain, req.token, req.keyAuth)];
      ok := !env.cleanUpFails;
    }

    /**
     * updateDNSRecords(tx, req, user, dnsupdater): writes the host intent, then sets the
     * requested records, stopping at the first failure.  A failed host write rolls the
     * transaction back; a failed SetRecord leaves that to the caller.
     */
    method UpdateDNSRecords(env: Env, user: Authorization, req: LegoMessage) returns (ok: bool)
      requires tx == Open
      modifies this`trace, this`tx, this`pending, this`zone
      ensures ok == UpdateSucceeds(env, req)
      ensures trace == old(trace) + UpdateCalls(env, req)
      ensures tx == if env.hostFails then RolledBack else Open
      ensures pending == if env.hostFails then hosts else old(pending)[req.domain := HostOf(user, req)]
      ensures zone == if env.hostFails then old(zone)
                      else SetAll(old(zone), Records.Written(PlanOf(req), env.setRecordFails))
    {
      ok := UpsertHost(env, user, req);
      if !ok {
        TxRollback();
        return;
      }
      AppendAssoc(old(trace), [UpsertCall(req)],
                  SetRecordCalls(Records.Attempted(PlanOf(req), env.setRecordFails)));
      ok := SetRequestedRecords(env, req);
    }

    /**
     * The three guarded SetRecord steps of updateDNSRecords: the A record if one is asked for;
     * then, unless that failed, the AAAA record if one is asked for; the CNAME record only when
     * no address is asked for.
     */
    method SetRequestedRecords(env: Env, req: LegoMessage) returns (ok: bool)
      modifies this`trace, this`zone
      ensures ok == Records.AllSucceed(PlanOf(req), env.setRecordFails)
      ensures trace == old(trace) + SetRecordCalls(Records.Attempted(PlanOf(req), env.setRecordFails))
      ensures zone == SetAll(old(zone), Records.Written(PlanOf(req), env.setRecordFails))
    {
      ghost var fails := env.setRecordFails;
      ghost var ra := Record(req.domain, A, req.targetA);
      ghost var r4 := Record(req.domain, AAAA, req.targetAAAA);
      ghost var rc := Record(req.domain, CNAME, req.targetCNAME);
      Records.StepsFollowPlan(req.domain, req.targetA, req.targetAAAA, req.targetCNAME, fails);
      ghost var start, zone0 := trace, zone;
      // the calls issued and the records written so far
      ghost var issued: seq<Record>, written: seq<Record> := [], [];
      if |req.targetA| > 0 {
        ok := ProviderSetRecord(env, Record(req.domain, A, req.targetA));
        SetAllSnoc(zone0, written, ra);
        SetRecordCallsSnoc(issued, ra);
        issued, written := issued + [ra], if ok then written + [ra] else written;
        if !ok {
          return;
        }
      }
      if |req.targetAAAA| > 0 {
        ok := ProviderSetRecord(env, Record(req.domain, AAAA, req.targetAAAA));
        SetAllSnoc(zone0, written, r4);
        SetRecordCallsSnoc(issued, r4);
        issued, written := issued + [r4], if ok then written + [r4] else written;
        if !ok {
          return;
        }
      }
      if |req.targetA| == 0 && |req.targetAAAA| == 0 && |req.targetCNAME| > 0 {
        ok := ProviderSetRecord(env, Record(req.domain, CNAME, req.targetCNAME));
        SetAllSnoc(zone0, written, rc);
        SetRecordCallsSnoc(issued, rc);
        issued, written := issued + [rc], if ok then written + [rc] else written;
        return;
      }
      ok := true;
    }

    /**
     * LegoPresent: 401 without a user, 403 when CanUseHost refuses; otherwise the transaction
     * below answers.
     */
    method LegoPresent(env: Env, user: Option<Authorization>, req: LegoMessage) returns (status: Status)
      requires Valid()
      modifies this
      ensures Valid()
      ensures status == PresentStatus(env, user, req)
      ensures trace == old(trace) + PresentCalls(env, user, req)
      ensures hosts == if status == OK then old(hosts)[req.domain := HostOf(user.value, req)] else old(hosts)
      ensures zone == PresentZone(env, user, req, old(zone))
      ensures auths == old(auths)
      ensures tx == if !Admitted(env, user, req.domain) then old(tx)
                    else if env.beginFails then NoTx
                    else if status == OK then Committed
                    else if PresentSucceeds(env, user, req) then CommitFailed
                    else RolledBack
    {
      if user.None? {
        return Unauthorized;
      }
      var u := user.value;
      var allowed := CheckCanUseHost(env, u, req.domain);
      if !allowed {
        return Forbidden;
      }
      AppendAssoc(old(trace), [CanUseHost(u.name, req.domain)], AdmittedCalls(env, req));
      status := PresentTransaction(env, u, req);
    }

    /**
     * The part of LegoPresent past the permission gate: begin, then updateDNSRecords, the
     * challenge and the commit; a failure of the middle two rolls the transaction back, and
     * any failure answers 500.
     */
    method PresentTransaction(env: Env, u: Authorization, req: LegoMessage) returns (status: Status)
      requires tx != Open && pending == hosts
      modifies this`trace, this`tx, this`pending, this`zone, this`hosts
      ensures status == if !env.beginFails && UpdateSucceeds(env, req) && !env.presentFails && !env.commitFails
                        then OK else InternalServerError
      ensures trace == old(trace) + AdmittedCalls(env, req)
      ensures hosts == if status == OK then old(hosts)[req.domain := HostOf(u, req)] else old(hosts)
      ensures pending == hosts
      ensures zone == if env.beginFails || env.hostFails then old(zone)
                      else SetAll(old(zone), Records.Written(PlanOf(req), env.setRecordFails))
      ensures tx == if env.beginFails then NoTx
                    else if status == OK then Committed
                    else if UpdateSucceeds(env, req) && !env.presentFails then CommitFailed
                    else RolledBack
    {
      var ok := DbBegin(env);
      if !ok {
        return InternalServerError;
      }
      ghost var start := trace;
      AppendAssoc(old(trace), [Begin], TxCalls(env, req));
      TxCallsSteps(env, req);
      ok := UpdateDNSRecords(env, u, req);
      ghost var update := UpdateCalls(env, req);
      if !ok {
        TxRollback();
        AppendAssoc(start, update, [Rollback]);
        return InternalServerError;
      }
      ghost var present := update + [Present(req.domain, req.token, req.keyAuth)];
      ok := ChallengePresent(env, req);
      AppendAssoc(start, update, [Present(req.domain, req.token, req.keyAuth)]);
      if !ok {
        TxRollback();
        AppendAssoc(start, present, [Rollback]);
        return InternalServerError;
      }
      ok := TxCommit(env);
      AppendAssoc(start, present, [Commit]);
      if !ok {
        return InternalServerError;
      }
      status := OK;
    }

    /** LegoCleanup: the same 401/403 gate, then CleanUp; no transaction and no stored change. */
    method LegoCleanup(env: Env, user: Option<Authorization>, req: LegoMessage) returns (status: Status)
      requires Valid()
      modifies this`trace
      ensures status == CleanupStatus(env, user, req)
      ensures trace == old(trace) + CleanupCalls(env, user, req)
    {
      if user.None? {
        return Unauthorized;
      }
      var u := user.value;
      var allowed := CheckCanUseHost(env, u, req.domain);
      if !allowed {
        return Forbidden;
      }
      var ok := ChallengeCleanUp(env, req);
      if !ok {
        return InternalServerError;
      }
      status := OK;
    }

    /** The count query: how many authorizations carry the name. */
    method DbCountAuthorizations(env: Env, name: string) returns (count: nat, failed: bool)
      requires NamesAreKeys()
      modifies this`trace
      ensures failed == env.countFails
      ensures count == if name in auths then 1 else 0
      ensures trace == old(trace) + [CountAuthorizations(name)]
    {
      trace := trace + [CountAuthorizations(name)];
      count, failed := if name in auths then 1 else 0, env.countFails;
    }

    /** db.Insert(&dbauth): stores a new authorization. */
    method DbInsertAuthorization(env: Env, auth: Authorization) returns (ok: bool)
      modifies this`trace, this`auths
      ensures ok == !env.insertFails
      ensures trace == old(trace) + [InsertAuthorization(auth.name)]
      ensures auths == if ok then old(auths)[auth.name := auth] else old(auths)
    {
      trace := trace + [InsertAuthorization(auth.name)];
      ok := !env.insertFails;
      if ok {
        auths := auths[auth.name := auth];
      }
    }

    /**
     * CreateAuth: 401 for a non-admin, 403 when the name exists or the count fails, 400 when
     * bcrypt fails, 500 when the insert fails; otherwise one non-admin authorization is added.
     */
    method CreateAuth(env: Env, user: Authorization, msg: CreateAuthMessage) returns (status: Status)
      requires Valid()
      modifies this`trace, this`auths
      ensures Valid()
      ensures status == CreateAuthStatus(env, user, msg, old(auths))
      ensures trace == old(trace) + CreateAuthCalls(env, user, msg, old(auths))
      ensures auths == CreatedAuths(env, user, msg, old(auths))
    {
      if !user.admin {
        return Unauthorized;
      }
      var count, failed := DbCountAuthorizations(env, msg.name);
      if count != 0 || failed {
        return Forbidden;
      }
      var hashpw := env.hashPassword(msg.secret);
      if hashpw.None? {
        return BadRequest;
      }
      var ok := DbInsertAuthorization(env, Authorization(msg.name, hashpw.value, false));
      if !ok {
        return InternalServerError;
      }
      status := OK;
    }

    /**
     * DeleteAuth: 401 for a non-admin; otherwise it begins a transaction, answers 200 and the
     * deferred rollback discards the transaction, so nothing is deleted.  When the begin fails
     * it returns without writing a response.
     */
    method DeleteAuth(env: Env, user: Authorization, msg: DeleteAuthMessage) returns (status: Status)
      requires Valid()
      modifies this`trace, this`tx, this`pending
      ensures Valid()
      ensures status == DeleteAuthStatus(env, user)
      ensures trace == old(trace) + DeleteAuthCalls(env, user)
      ensures tx == if !user.admin then old(tx) else if env.beginFails then NoTx else RolledBack
    {
      if !user.admin {
        return Unauthorized;
      }
      var ok := DbBegin(env);
      if !ok {
        return Unwritten;
      }
      status := OK;
      TxRollback();
    }
  }
}
