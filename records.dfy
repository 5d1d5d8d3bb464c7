/**
 * The record-selection and fail-fast rule of updateDNSRecords (sintls/routes.go).
 *
 * `Plan` is the ordered list of SetRecord calls a request asks for: its A record, then its
 * AAAA record, and its CNAME only when it gives no address at all, since a CNAME cannot share
 * a name with other data (section 3.6.2 of RFC 1034).  `Written` and `Attempted` say how far
 * that list gets when the provider's calls may fail: the first failure ends it.
 */
module Records {
  import opened DnsProviders

  /** The SetRecord calls for one host, in the order they are issued. */
  function Plan(domain: string, a: string, aaaa: string, cname: string): (p: seq<Record>)
    ensures Record(domain, A, a) in p <==> a != ""
    ensures Record(domain, AAAA, aaaa) in p <==> aaaa != ""
    ensures Record(domain, CNAME, cname) in p <==> a == "" && aaaa == "" && cname != ""
    ensures p == [] <==> a == "" && aaaa == "" && cname == ""
  {
    var address := (if a != "" then [Record(domain, A, a)] else []) +
                   (if aaaa != "" then [Record(domain, AAAA, aaaa)] else []);
    if address == [] && cname != "" then [Record(domain, CNAME, cname)] else address
  }

  /**
   * A plan holds nothing but the requested records, for the host itself, with non-empty
   * targets, and the A record comes before the AAAA record.
   */
  lemma PlanShape(domain: string, a: string, aaaa: string, cname: string)
    ensures var p := Plan(domain, a, aaaa, cname);
            && |p| <= 2
            && (forall r :: r in p ==> r.fqdn == domain && r.target != "")
            && (forall r :: r in p ==>
                  r == Record(domain, A, a) || r == Record(domain, AAAA, aaaa) || r == Record(domain, CNAME, cname))
            && (forall i, j :: 0 <= i < j < |p| ==> p[i].rtype == A && p[j].rtype == AAAA)
  {
  }

  /** A planned CNAME is always alone: it never accompanies an address record. */
  lemma CnameIsAlone(domain: string, a: string, aaaa: string, cname: string, i: nat)
    requires i < |Plan(domain, a, aaaa, cname)|
    requires Plan(domain, a, aaaa, cname)[i].rtype == CNAME
    ensures Plan(domain, a, aaaa, cname) == [Record(domain, CNAME, cname)]
  {
  }

  /** The records of one plan address distinct provider records. */
  lemma PlanDistinctKeys(domain: string, a: string, aaaa: string, cname: string)
    ensures DistinctKeys(Plan(domain, a, aaaa, cname))
  {
  }

  predicate AllSucceed(plan: seq<Record>, fails: Record -> bool) {
    forall i :: 0 <= i < |plan| ==> !fails(plan[i])
  }

  /**
   * The records that are set when the calls of `plan` are issued in order and the first
   * failing one ends the sequence.
   */
  function Written(plan: seq<Record>, fails: Record -> bool): (w: seq<Record>)
    ensures |w| <= |plan|
  {
    if plan == [] || fails(plan[0]) then []
    else [plan[0]] + Written(plan[1..], fails)
  }

  /**
   * What is written is the longest prefix of the plan whose calls all succeed: the call after
   * it, if any, is the first that fails.
   */
  lemma {:induction false} WrittenIsSucceedingPrefix(plan: seq<Record>, fails: Record -> bool)
    ensures var w := Written(plan, fails);
            && w == plan[..|w|]
            && (forall i :: 0 <= i < |w| ==> !fails(w[i]))
            && (|w| < |plan| ==> fails(plan[|w|]))
            && (AllSucceed(plan, fails) <==> w == plan)
  {
    if plan != [] && !fails(plan[0]) {
      WrittenIsSucceedingPrefix(plan[1..], fails);
      var w := Written(plan, fails);
      assert w == [plan[0]] + Written(plan[1..], fails);
      assert AllSucceed(plan, fails) <==> AllSucceed(plan[1..], fails) by {
        if AllSucceed(plan[1..], fails) {
          forall i | 0 <= i < |plan| ensures !fails(plan[i]) {
            if i > 0 { assert plan[i] == plan[1..][i - 1]; }
          }
        }
      }
    }
  }

  /** The calls that are issued: those that succeed, then the failing one, if any. */
  function Attempted(plan: seq<Record>, fails: Record -> bool): (t: seq<Record>)
    ensures |Written(plan, fails)| <= |t| <= |plan|
  {
    var w := Written(plan, fails);
    if |w| < |plan| then w + [plan[|w|]] else w
  }

  /**
   * The issued calls are a prefix of the plan in which every call but the last succeeds; the
   * sequence stops early only at a failure, and all of the plan succeeds iff all of it is
   * issued and its last call succeeds.
   */
  lemma AttemptedStopsAtFirstFailure(plan: seq<Record>, fails: Record -> bool)
    ensures var t := Attempted(plan, fails);
            && t == plan[..|t|]
            && (forall r :: r in t ==> r in plan)
            && (forall i :: 0 <= i < |t| - 1 ==> !fails(t[i]))
            && (|t| < |plan| ==> t != [] && fails(t[|t| - 1]))
            && (AllSucceed(plan, fails) <==> t == plan && (t == [] || !fails(t[|t| - 1])))
  {
    WrittenIsSucceedingPrefix(plan, fails);
    var w := Written(plan, fails);
    var t := Attempted(plan, fails);
    if |w| < |plan| {
      assert t == plan[..|w| + 1];
    }
  }

  lemma FailFastOne(r: Record, fails: Record -> bool)
    ensures Written([r], fails) == if fails(r) then [] else [r]
    ensures Attempted([r], fails) == [r]
    ensures AllSucceed([r], fails) <==> !fails(r)
  {
  }

  lemma FailFastTwo(r1: Record, r2: Record, fails: Record -> bool)
    ensures Written([r1, r2], fails) == if fails(r1) then [] else if fails(r2) then [r1] else [r1, r2]
    ensures Attempted([r1, r2], fails) == if fails(r1) then [r1] else [r1, r2]
    ensures AllSucceed([r1, r2], fails) <==> !fails(r1) && !fails(r2)
  {
  }

  /**
   * The plan and the fail-fast rule case by case, as updateDNSRecords' three guarded steps
   * produce them: the A record if asked for; then, unless it failed, the AAAA record if asked
   * for; the CNAME only when no address is asked for; nothing when no target is given.
   */
  lemma StepsFollowPlan(domain: string, a: string, aaaa: string, cname: string, fails: Record -> bool)
    ensures var ra, plan := Record(domain, A, a), Plan(domain, a, aaaa, cname);
            a != "" && fails(ra) ==>
              Attempted(plan, fails) == [ra] && Written(plan, fails) == [] && !AllSucceed(plan, fails)
    ensures var ra, r4, plan := Record(domain, A, a), Record(domain, AAAA, aaaa), Plan(domain, a, aaaa, cname);
            a != "" && !fails(ra) && aaaa != "" ==>
              Attempted(plan, fails) == [ra, r4] &&
              Written(plan, fails) == (if fails(r4) then [ra] else [ra, r4]) &&
              (AllSucceed(plan, fails) <==> !fails(r4))
    ensures var ra, plan := Record(domain, A, a), Plan(domain, a, aaaa, cname);
            a != "" && !fails(ra) && aaaa == "" ==>
              Attempted(plan, fails) == [ra] && Written(plan, fails) == [ra] && AllSucceed(plan, fails)
    ensures var r4, plan := Record(domain, AAAA, aaaa), Plan(domain, a, aaaa, cname);
            a == "" && aaaa != "" ==>
              Attempted(plan, fails) == [r4] &&
              Written(plan, fails) == (if fails(r4) then [] else [r4]) &&
              (AllSucceed(plan, fails) <==> !fails(r4))
    ensures var rc, plan := Record(domain, CNAME, cname), Plan(domain, a, aaaa, cname);
            a == "" && aaaa == "" && cname != "" ==>
              Attempted(plan, fails) == [rc] &&
              Written(plan, fails) == (if fails(rc) then [] else [rc]) &&
              (AllSucceed(plan, fails) <==> !fails(rc))
    ensures var plan := Plan(domain, a, aaaa, cname);
            a == "" && aaaa == "" && cname == "" ==>
              Attempted(plan, fails) == [] && Written(plan, fails) == [] && AllSucceed(plan, fails)
  {
  }
}
