/**
 * The DNS updater capability and the registry that selects an implementation by name
 * (dns/dns_providers.go).
 *
 * Of the DNSUpdater interface only SetRecord is used by the request handlers; its effect on
 * the records held by the provider is modelled here as an update of a `Zone`.  The provider's
 * own wire protocol is not modelled: whether a call succeeds is decided by the caller's
 * environment (see module Routes).
 */
module DnsProviders {
  import opened Wrappers

  /** The record types the handlers pass as SetRecord's `fieldtype`. */
  datatype RecordType = A | AAAA | CNAME {
    /** The string that is passed to the provider. */
    function Name(): string {
      match this
      case A => "A"
      case AAAA => "AAAA"
      case CNAME => "CNAME"
    }
  }

  /** A record held by the provider is identified by its name and its type. */
  datatype RecordKey = RecordKey(fqdn: string, rtype: RecordType)

  /** The arguments of one SetRecord(fqdn, fieldtype, target) call. */
  datatype Record = Record(fqdn: string, rtype: RecordType, target: string) {
    function Key(): RecordKey { RecordKey(fqdn, rtype) }
  }

  /** The external DNS state: the value of every record the provider holds. */
  type Zone = map<RecordKey, string>

  /** No two records of `recs` address the same provider record. */
  predicate DistinctKeys(recs: seq<Record>) {
    forall i, j :: 0 <= i < j < |recs| ==> recs[i].Key() != recs[j].Key()
  }

  /** The zone after a successful SetRecord call for each of `recs`, in order. */
  function SetAll(zone: Zone, recs: seq<Record>): (z: Zone)
    ensures zone.Keys <= z.Keys
    decreases |recs|
  {
    if recs == [] then zone
    else SetAll(zone[recs[0].Key() := recs[0].target], recs[1..])
  }

  /** Setting one more record updates the zone at that record's key. */
  lemma {:induction false} SetAllSnoc(zone: Zone, recs: seq<Record>, r: Record)
    ensures SetAll(zone, recs + [r]) == SetAll(zone, recs)[r.Key() := r.target]
    decreases |recs|
  {
    if recs == [] {
      assert [r][1..] == [];
    } else {
      assert (recs + [r])[1..] == recs[1..] + [r];
      SetAllSnoc(zone[recs[0].Key() := recs[0].target], recs[1..], r);
    }
  }

  /** A record that none of `recs` addresses keeps its value (or its absence). */
  lemma {:induction false} SetAllKeeps(zone: Zone, recs: seq<Record>, k: RecordKey)
    requires forall i :: 0 <= i < |recs| ==> recs[i].Key() != k
    ensures k in SetAll(zone, recs) <==> k in zone
    ensures k in zone ==> SetAll(zone, recs)[k] == zone[k]
    decreases |recs|
  {
    if recs != [] {
      SetAllKeeps(zone[recs[0].Key() := recs[0].target], recs[1..], k);
    }
  }

  /** When no two records share a key, each of them is what the provider holds afterwards. */
  lemma {:induction false} SetAllHolds(zone: Zone, recs: seq<Record>, i: nat)
    requires DistinctKeys(recs)
    requires i < |recs|
    ensures recs[i].Key() in SetAll(zone, recs)
    ensures SetAll(zone, recs)[recs[i].Key()] == recs[i].target
    decreases |recs|
  {
    var next := zone[recs[0].Key() := recs[0].target];
    if i == 0 {
      SetAllKeeps(next, recs[1..], recs[0].Key());
    } else {
      SetAllHolds(next, recs[1..], i - 1);
    }
  }

  /**
   * Setting the same records again leaves the provider as it was after the first time: a
   * repeated present re-applies its records without further change. The lemma asks for
   * distinct keys because its proof rests on SetAllHolds; every plan has them (PlanDistinctKeys).
   */
  lemma SetAllIdempotent(zone: Zone, recs: seq<Record>)
    requires DistinctKeys(recs)
    ensures SetAll(SetAll(zone, recs), recs) == SetAll(zone, recs)
  {
    var once := SetAll(zone, recs);
    var twice := SetAll(once, recs);
    forall k
      ensures k in twice <==> k in once
      ensures k in twice ==> twice[k] == once[k]
    {
      if i :| 0 <= i < |recs| && recs[i].Key() == k {
        SetAllHolds(zone, recs, i);
        SetAllHolds(once, recs, i);
      } else {
        SetAllKeeps(once, recs, k);
      }
    }
  }

  /** The DNSUpdater implementations the registry knows. */
  datatype Updater = Ovh

  /** The (DNSUpdater, error) pair a constructor returns; None stands for nil. */
  datatype Lookup = Lookup(updater: Option<Updater>, err: Option<string>)

  const OvhName := "ovh"

  const UnrecognizedPrefix := "unrecognized DNS provider: "

  /**
   * The registry: "ovh" answers with whatever the OVH constructor returns (`newOvh`, which
   * depends on the process environment and is given as a parameter); every other name, compared
   * exactly, is refused with an error that names it.
   */
  function NewDNSUpdaterByName(name: string, newOvh: Lookup): (r: Lookup)
    ensures name == OvhName ==> r == newOvh
    ensures name != OvhName ==> r.updater.None? && r.err.Some?
    ensures name != OvhName ==>
              |UnrecognizedPrefix| <= |r.err.value| &&
              r.err.value[..|UnrecognizedPrefix|] == UnrecognizedPrefix &&
              r.err.value[|UnrecognizedPrefix|..] == name
  {
    match name
    case "ovh" => newOvh
    case _ => Lookup(None, Some(UnrecognizedPrefix + name))
  }

  /** The only name that can yield an updater is "ovh"; no variant of it in case or spacing. */
  lemma OnlyOvhYieldsUpdater(name: string, newOvh: Lookup)
    requires NewDNSUpdaterByName(name, newOvh).updater.Some?
    ensures name == "ovh"
  {
  }

  /** Unknown names never reach the OVH constructor: its outcome does not matter to them. */
  lemma UnknownNameIgnoresOvh(name: string, x: Lookup, y: Lookup)
    requires name != OvhName
    ensures NewDNSUpdaterByName(name, x) == NewDNSUpdaterByName(name, y)
  {
  }

  /** Two different unknown names are reported with two different errors. */
  lemma UnknownNamesDistinctErrors(n1: string, n2: string, newOvh: Lookup)
    requires n1 != OvhName && n2 != OvhName && n1 != n2
    ensures NewDNSUpdaterByName(n1, newOvh).err != NewDNSUpdaterByName(n2, newOvh).err
  {
  }

  /** Matching is exact: the upper-case spelling and the empty name are refused. */
  lemma ExactMatchExamples(newOvh: Lookup)
    ensures NewDNSUpdaterByName("OVH", newOvh) == Lookup(None, Some("unrecognized DNS provider: OVH"))
    ensures NewDNSUpdaterByName("", newOvh) == Lookup(None, Some("unrecognized DNS provider: "))
  {
    assert "OVH"[0] != OvhName[0];
    assert UnrecognizedPrefix + "OVH" == "unrecognized DNS provider: OVH";
    assert UnrecognizedPrefix + "" == UnrecognizedPrefix;
  }
}
