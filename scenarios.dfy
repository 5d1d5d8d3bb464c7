/**
 * Concrete scenarios of the handlers on a fresh server: a principal claims a.example.com with an A
 * target, the same request with a failing challenge, a refused request and a clean-up; and the
 * record-selection rule on concrete target combinations.
 */
module Scenarios {
  import opened Wrappers
  import opened DnsProviders
  import opened Routes
  import Records

  const Domain := "a.example.com"
  const Principal := Authorization("p", "hashed", false)
  const Claim := LegoMessage(Domain, "t", "k", "9.9.9.9", "", "")
  const ClaimRecord := Record(Domain, A, "9.9.9.9")

  /** Every collaborator succeeds, the permission query included. */
  function Smooth(): Env {
    Env((u: Authorization, d: string) => true, false, false, (r: Record) => false, false, false, false,
        false, (s: string) => Some(s), false)
  }

  /** The A target suppresses the CNAME; without an address the CNAME is the only record. */
  lemma SelectionExamples(d: string)
    ensures Records.Plan(d, "1.2.3.4", "", "x") == [Record(d, A, "1.2.3.4")]
    ensures Records.Plan(d, "", "", "x") == [Record(d, CNAME, "x")]
    ensures Records.Plan(d, "", "", "") == []
  {
  }

  /** The claim plans its A record alone, which is issued and is set iff its call succeeds. */
  lemma ClaimPlan(env: Env)
    ensures PlanOf(Claim) == [ClaimRecord]
    ensures Records.Written(PlanOf(Claim), env.setRecordFails)
            == if env.setRecordFails(ClaimRecord) then [] else [ClaimRecord]
    ensures Records.Attempted(PlanOf(Claim), env.setRecordFails) == [ClaimRecord]
  {
  }

  /**
   * A principal that owns nothing presents a.example.com with A target 9.9.9.9: the host is
   * stored with that target, the provider holds the A record, the challenge is presented once
   * and the answer is 200.
   */
  method PresentSucceeds() returns (status: Status, hosts: map<string, Host>, zone: Zone, calls: seq<Call>)
    ensures status == OK
    ensures hosts == map[Domain := Host("p", "9.9.9.9", "", "")]
    ensures zone == map[RecordKey(Domain, A) := "9.9.9.9"]
    ensures calls == [CanUseHost("p", Domain), Begin, CreateOrUpdateHost(Domain, "9.9.9.9", "", ""),
                      SetRecord(ClaimRecord), Present(Domain, "t", "k"), Commit]
  {
    var env := Smooth();
    ClaimPlan(env);
    PresentHappyPath(env, Principal, Claim);
    assert SetRecordCalls([ClaimRecord]) == [SetRecord(ClaimRecord)];
    var srv := new Server(map[], map[], map[]);
    status := srv.LegoPresent(env, Some(Principal), Claim);
    assert SetAll(map[], [ClaimRecord]) == map[][ClaimRecord.Key() := ClaimRecord.target];
    hosts, zone, calls := srv.hosts, srv.zone, srv.trace;
  }

  /**
   * The same claim with a failing challenge: 500, the transaction is rolled back so the host is
   * not stored, but the A record stays at the provider.
   */
  method PresentChallengeFails() returns (status: Status, hosts: map<string, Host>, zone: Zone)
    ensures status == InternalServerError
    ensures hosts == map[]
    ensures zone == map[RecordKey(Domain, A) := "9.9.9.9"]
  {
    var env := Smooth().(presentFails := true);
    ClaimPlan(env);
    var srv := new Server(map[], map[], map[]);
    status := srv.LegoPresent(env, Some(Principal), Claim);
    assert SetAll(map[], [ClaimRecord]) == map[][ClaimRecord.Key() := ClaimRecord.target];
    hosts, zone := srv.hosts, srv.zone;
  }

  /**
   * A second principal presents a domain the permission query refuses it: 403, and nothing
   * but the permission query is called.
   */
  method PresentRefused() returns (status: Status, hosts: map<string, Host>, calls: seq<Call>)
    ensures status == Forbidden
    ensures hosts == map[Domain := Host("p", "9.9.9.9", "", "")]
    ensures calls == [CanUseHost("p2", Domain)]
  {
    var env := Smooth().(canUseHost := (u: Authorization, d: string) => u.name == "p");
    var intruder := Authorization("p2", "hashed", false);
    var srv := new Server(map[], map[Domain := Host("p", "9.9.9.9", "", "")], map[]);
    status := srv.LegoPresent(env, Some(intruder), Claim);
    hosts, calls := srv.hosts, srv.trace;
  }

  /** Clean-up of an owned domain calls CleanUp once, answers 200 and touches no stored state. */
  method CleanupSucceeds() returns (status: Status, hosts: map<string, Host>, calls: seq<Call>)
    ensures status == OK
    ensures hosts == map[Domain := Host("p", "9.9.9.9", "", "")]
    ensures calls == [CanUseHost("p", Domain), CleanUp(Domain, "t", "k")]
  {
    var srv := new Server(map[], map[Domain := Host("p", "9.9.9.9", "", "")], map[]);
    status := srv.LegoCleanup(Smooth(), Some(Principal), Claim);
    hosts, calls := srv.hosts, srv.trace;
  }
}
