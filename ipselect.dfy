/**
 * Mapping an IPAM result to the single `IPDataType` the engines take, and
 * suppressing the gateways IPAM reported.
 */
module IpSelect {
  import opened Wrappers
  import opened Types

  /** A record the selection loop can take: version "4" or "6". */
  predicate Usable(ip: IPConfig) {
    ip.version == "4" || ip.version == "6"
  }

  /** The index of the first usable record, if there is one. */
  function FirstUsable(recs: seq<IPConfig>): (r: Option<nat>)
    ensures r.Some? ==> r.value < |recs| && Usable(recs[r.value])
    ensures r.Some? ==> forall j :: 0 <= j < r.value ==> !Usable(recs[j])
    ensures r.None? <==> forall j :: 0 <= j < |recs| ==> !Usable(recs[j])
  {
    if recs == [] then None
    else if Usable(recs[0]) then Some(0)
    else match FirstUsable(recs[1..])
      case None => None
      case Some(k) => Some(k + 1)
  }

  /** The `IPDataType` filled from one usable record. */
  function IpDataOf(ip: IPConfig): IPData {
    IPData(if ip.version == "6" then 1 else 0, ip.address, ToByte(ip.prefixLen))
  }

  /** The `IPDataType` an IPAM result yields: zero when no record is usable. */
  function IpDataFor(recs: seq<IPConfig>): IPData {
    match FirstUsable(recs)
    case None => ZeroIpData
    case Some(i) => IpDataOf(recs[i])
  }

  /**
   * What IpDataFor means: the zero value exactly when no record has
   * version "4" or "6"; otherwise the address and prefix length of the
   * first such record, flagged IPv6 exactly when its version is "6".
   */
  lemma IpDataForMeaning(recs: seq<IPConfig>)
    ensures IpDataFor(recs) == ZeroIpData <==> forall j :: 0 <= j < |recs| ==> !Usable(recs[j])
    ensures IpDataFor(recs) != ZeroIpData ==>
      exists i :: 0 <= i < |recs| && Usable(recs[i])
        && (forall j :: 0 <= j < i ==> !Usable(recs[j]))
        && IpDataFor(recs).address == recs[i].address
        && IpDataFor(recs).addressLength == recs[i].prefixLen
        && (IpDataFor(recs).isIpv6 == 1 <==> recs[i].version == "6")
        && (IpDataFor(recs).isIpv6 == 0 <==> recs[i].version == "4")
  {
  }

  /**
   * The selection loop of ADD: scan the records in order, fill the
   * `IPDataType` from a record of version "4" or "6", and stop as soon as
   * an address has been filled in.
   */
  method SelectIpData(ips: array<IPConfig>) returns (ipData: IPData)
    ensures ipData == IpDataFor(ips[..])
  {
    ipData := ZeroIpData;
    var i := 0;
    while i < ips.Length
      invariant 0 <= i <= ips.Length
      invariant forall j :: 0 <= j < i ==> !Usable(ips[j])
      invariant ipData == ZeroIpData
    {
      var ip := ips[i];
      if ip.version == "4" {
        ipData := IPData(0, ip.address, ToByte(ip.prefixLen));
      } else if ip.version == "6" {
        ipData := IPData(1, ip.address, ToByte(ip.prefixLen));
      }
      if ipData.address != "" {
        assert Usable(ips[..][i]);
        assert FirstUsable(ips[..]) == Some(i);
        break;
      }
      i := i + 1;
    }
  }

  /** One record with its gateway cleared. */
  function ClearGateway(ip: IPConfig): IPConfig {
    ip.(gateway := None)
  }

  /** The records of an IPAM result as reported: every gateway cleared. */
  function WithoutGateways(recs: seq<IPConfig>): (r: seq<IPConfig>)
    ensures |r| == |recs|
    ensures forall i :: 0 <= i < |recs| ==> r[i] == recs[i].(gateway := None)
  {
    if recs == [] then [] else [ClearGateway(recs[0])] + WithoutGateways(recs[1..])
  }

  /** Usability does not look at the gateway, so selection is unaffected by clearing. */
  lemma SelectionIgnoresGateways(recs: seq<IPConfig>)
    ensures IpDataFor(WithoutGateways(recs)) == IpDataFor(recs)
  {
    var cleared := WithoutGateways(recs);
    assert forall j :: 0 <= j < |recs| ==> (Usable(cleared[j]) <==> Usable(recs[j]));
    match FirstUsable(recs)
    case None =>
    case Some(i) =>
      assert FirstUsable(cleared) == Some(i);
  }

  /** The gateway-clearing loop of ADD, writing each record in place. */
  method ClearGateways(ips: array<IPConfig>)
    modifies ips
    ensures ips[..] == WithoutGateways(old(ips[..]))
  {
    for i := 0 to ips.Length
      invariant forall j :: 0 <= j < i ==> ips[j] == old(ips[j]).(gateway := None)
      invariant forall j :: i <= j < ips.Length ==> ips[j] == old(ips[j])
    {
      ips[i] := ips[i].(gateway := None);
    }
  }
}
