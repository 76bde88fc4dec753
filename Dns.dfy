/** setDNS: read the public address, then UPSERT an A record for the
    configured name in the configured hosted zone. */
module Dns {
  import opened Outcomes
  import opened UserData

  const Ttl: int := 300

  /** The single change sent to ChangeResourceRecordSets. */
  datatype RecordChange = RecordChange(
    action: string,
    hostedZoneId: string,
    name: string,
    recordType: string,
    ttl: int,
    value: string,
    comment: string)

  datatype DnsError =
    | PublicIpFailed   // "error getting public IP: ..."
    | UpsertFailed     // "error setting DNS: ..."

  /** How setDNS ends: the error (None for nil) and the change it sent, if
      it got as far as sending one. */
  datatype DnsRun = DnsRun(error: Option<DnsError>, sent: Option<RecordChange>)

  /** setDNS over the outcome of the public-address fetch and of the Route 53
      call (upsertOk). */
  function SetDns(c: GameServerUserData, publicIp: Fetch<string>, upsertOk: bool): (r: DnsRun)
    ensures r.sent.Some? <==> publicIp.Fetched?
    ensures r.sent.Some? ==> r.sent.value == RecordChange("UPSERT", c.hostedZone, c.dnsName, "A", Ttl,
                                                          publicIp.value, "Game Server")
    ensures r.error.None? <==> publicIp.Fetched? && upsertOk
    ensures r.error == Some(PublicIpFailed) <==> publicIp.FetchError?
  {
    match publicIp
    case FetchError => DnsRun(Some(PublicIpFailed), None)
    case Fetched(ip) =>
      var change := RecordChange("UPSERT", c.hostedZone, c.dnsName, "A", Ttl, ip, "Game Server");
      DnsRun(if upsertOk then None else Some(UpsertFailed), Some(change))
  }
}
