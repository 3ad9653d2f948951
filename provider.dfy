/** The `Cloudflare` client and the DNS provider behind it, as a fake
    provider with state: the account's zones, a sequence of DNS records that
    `createRecord` appends to and `updateRecord` rewrites in place, a log of
    every API call, and a set of call positions the provider answers with
    `success: false`. The HTTP plumbing (`_fetchWithToken`, URL building, the
    bearer header, JSON) is replaced by this state. */
module Provider {
  import opened Types

  datatype Zone = Zone(id: string, name: string)

  datatype DnsRecord = DnsRecord(id: nat, zoneId: string, name: string, rrType: string, content: string, proxied: bool)

  /** One request sent to the provider's API. */
  datatype Call =
    | FindZoneCall(name: string)                     // GET zones?name=
    | FindRecordCall(zoneId: string, name: string)   // GET zones/{zone}/dns_records?name=
    | CreateRecordCall(zoneId: string, name: string, rrType: string, content: string, proxied: bool)  // POST
    | UpdateRecordCall(zoneId: string, recordId: nat, name: string, rrType: string, content: string, proxied: bool)  // PATCH

  /** The provider's state as the client sees it. The call at position `i`
      of the log is answered with `success: false` exactly when `i` is in
      `rejected`. */
  datatype Store = Store(zones: seq<Zone>, records: seq<DnsRecord>, nextId: nat, log: seq<Call>, rejected: set<nat>)

  /** Whether the provider answers the next call with `success: true`. */
  predicate Accepts(st: Store) {
    |st.log| !in st.rejected
  }

  /** Record ids are distinct and below the next id the provider hands out. */
  predicate WellFormed(st: Store) {
    && (forall i :: 0 <= i < |st.records| ==> st.records[i].id < st.nextId)
    && (forall i, j :: 0 <= i < j < |st.records| ==> st.records[i].id != st.records[j].id)
  }

  /** `isIPV4 ? "A" : "AAAA"`. */
  function RrType(isIpv4: bool): string {
    if isIpv4 then "A" else "AAAA"
  }

  /** The first zone of the account with the given name: `result[0]` of
      `zones?name=`. */
  function FirstZoneNamed(zones: seq<Zone>, name: string): (r: Option<Zone>)
    ensures r.None? <==> forall i :: 0 <= i < |zones| ==> zones[i].name != name
    ensures r.Some? ==> exists i :: 0 <= i < |zones| && zones[i] == r.value && r.value.name == name && forall j :: 0 <= j < i ==> zones[j].name != name
  {
    if |zones| == 0 then None
    else if zones[0].name == name then Some(zones[0])
    else
      var r := FirstZoneNamed(zones[1..], name);
      assert forall i :: 1 <= i < |zones| ==> zones[i] == zones[1..][i - 1];
      r
  }

  predicate InZoneNamed(r: DnsRecord, zoneId: string, name: string) {
    r.zoneId == zoneId && r.name == name
  }

  /** The provider's answer to `zones/{zone}/dns_records?name=`: the zone's
      records with that name, in store order. */
  function RecordsNamed(records: seq<DnsRecord>, zoneId: string, name: string): (r: seq<DnsRecord>)
    ensures forall x :: x in r <==> x in records && InZoneNamed(x, zoneId, name)
    ensures |r| == 0 <==> forall i :: 0 <= i < |records| ==> !InZoneNamed(records[i], zoneId, name)
  {
    if |records| == 0 then []
    else
      var rest := RecordsNamed(records[1..], zoneId, name);
      assert forall i :: 1 <= i < |records| ==> records[i] == records[1..][i - 1];
      if InZoneNamed(records[0], zoneId, name) then [records[0]] + rest else rest
  }

  /** `result.filter(rr => rr.type === rrType)[0]`: the first record of the
      type, or `undefined`. */
  function FirstOfType(records: seq<DnsRecord>, rrType: string): (r: Option<DnsRecord>)
    ensures r.None? <==> forall i :: 0 <= i < |records| ==> records[i].rrType != rrType
    ensures r.Some? ==> exists i :: 0 <= i < |records| && records[i] == r.value && r.value.rrType == rrType && forall j :: 0 <= j < i ==> records[j].rrType != rrType
  {
    if |records| == 0 then None
    else if records[0].rrType == rrType then Some(records[0])
    else
      var r := FirstOfType(records[1..], rrType);
      assert forall i :: 1 <= i < |records| ==> records[i] == records[1..][i - 1];
      r
  }

  /** The first record of a type is the one a scan from the front stops at. */
  lemma {:induction false} FirstOfTypeAt(records: seq<DnsRecord>, rrType: string, i: nat)
    requires i <= |records|
    requires forall j :: 0 <= j < i ==> records[j].rrType != rrType
    requires i < |records| ==> records[i].rrType == rrType
    ensures FirstOfType(records, rrType) == if i < |records| then Some(records[i]) else None
  {
    if i > 0 {
      FirstOfTypeAt(records[1..], rrType, i - 1);
    }
  }

  /** The first record of the store in the zone with the name and the type. */
  function FirstMatch(records: seq<DnsRecord>, zoneId: string, name: string, rrType: string): (r: Option<DnsRecord>)
    ensures r.Some? ==> r.value in records && InZoneNamed(r.value, zoneId, name) && r.value.rrType == rrType
  {
    if |records| == 0 then None
    else if InZoneNamed(records[0], zoneId, name) && records[0].rrType == rrType then Some(records[0])
    else FirstMatch(records[1..], zoneId, name, rrType)
  }

  /** Filtering by name on the provider and then by type in the client finds
      the first record of the store that matches all three. */
  lemma {:induction false} FilterThenFirst(records: seq<DnsRecord>, zoneId: string, name: string, rrType: string)
    ensures FirstOfType(RecordsNamed(records, zoneId, name), rrType) == FirstMatch(records, zoneId, name, rrType)
  {
    if |records| > 0 {
      FilterThenFirst(records[1..], zoneId, name, rrType);
      var rest := RecordsNamed(records[1..], zoneId, name);
      if InZoneNamed(records[0], zoneId, name) {
        assert RecordsNamed(records, zoneId, name) == [records[0]] + rest;
        assert ([records[0]] + rest)[1..] == rest;
      }
    }
  }

  /** `PATCH` of a record: every record with the id gets the new content and
      flag and keeps its id, zone, name and type; the others are untouched. */
  function Rewrite(records: seq<DnsRecord>, id: nat, content: string, proxied: bool): (r: seq<DnsRecord>)
    ensures |r| == |records|
    ensures forall i :: 0 <= i < |r| ==>
      && r[i].id == records[i].id && r[i].zoneId == records[i].zoneId
      && r[i].name == records[i].name && r[i].rrType == records[i].rrType
      && (records[i].id == id ==> r[i].content == content && r[i].proxied == proxied)
      && (records[i].id != id ==> r[i] == records[i])
  {
    if |records| == 0 then []
    else
      var head := if records[0].id == id then records[0].(content := content, proxied := proxied) else records[0];
      var rest := Rewrite(records[1..], id, content, proxied);
      assert forall i :: 1 <= i < |records| ==> ([head] + rest)[i] == rest[i - 1] && records[i] == records[1..][i - 1];
      [head] + rest
  }

  function ZoneNotFound(name: string): Failure {
    ApiError("Failed to find zone '" + name + "'")
  }

  function RecordNotFound(name: string): Failure {
    ApiError("Failed to find dns record '" + name + "'")
  }

  const CreateFailed := ApiError("Failed to create dns record")
  const UpdateFailed := ApiError("Failed to update dns record")

  /** `findZone`: fails on `success: false` or an empty result. */
  function FindZoneReply(st: Store, name: string): (reply: (Result<Zone>, Store))
    ensures reply.1 == st.(log := st.log + [FindZoneCall(name)])
    ensures reply.0.Ok? <==> Accepts(st) && exists i :: 0 <= i < |st.zones| && st.zones[i].name == name
    ensures reply.0.Ok? ==> reply.0.value.name == name && FirstZoneNamed(st.zones, name) == Some(reply.0.value)
    ensures reply.0.Err? ==> reply.0.error == ZoneNotFound(name)
  {
    var logged := st.(log := st.log + [FindZoneCall(name)]);
    var found := FirstZoneNamed(st.zones, name);
    if !Accepts(st) || found.None? then (Err(ZoneNotFound(name)), logged)
    else (Ok(found.value), logged)
  }

  /** `findRecord`: fails on `success: false` or when the zone has no record
      with the name; otherwise resolves to the first such record of the
      requested type, or to `undefined` when none has that type. */
  function FindRecordReply(st: Store, zone: Zone, name: string, isIpv4: bool): (reply: (Result<Option<DnsRecord>>, Store))
    ensures reply.1 == st.(log := st.log + [FindRecordCall(zone.id, name)])
    ensures reply.0.Ok? <==> Accepts(st) && exists i :: 0 <= i < |st.records| && InZoneNamed(st.records[i], zone.id, name)
    ensures reply.0.Ok? ==> reply.0.value == FirstMatch(st.records, zone.id, name, RrType(isIpv4))
    ensures reply.0.Ok? && reply.0.value.Some? ==>
      var x := reply.0.value.value;
      x in st.records && InZoneNamed(x, zone.id, name) && x.rrType == RrType(isIpv4)
    ensures reply.0.Ok? && reply.0.value.None? ==>
      forall i :: 0 <= i < |st.records| && InZoneNamed(st.records[i], zone.id, name) ==> st.records[i].rrType != RrType(isIpv4)
    ensures reply.0.Err? ==> reply.0.error == RecordNotFound(name)
  {
    var logged := st.(log := st.log + [FindRecordCall(zone.id, name)]);
    var result := RecordsNamed(st.records, zone.id, name);
    if !Accepts(st) || |result| == 0 then (Err(RecordNotFound(name)), logged)
    else
      FilterThenFirst(st.records, zone.id, name, RrType(isIpv4));
      (Ok(FirstOfType(result, RrType(isIpv4))), logged)
  }

  /** `createRecord`: on success the provider appends the record
      `{content, name, proxied, type}` with a fresh id. */
  function CreateRecordReply(st: Store, zone: Zone, name: string, content: string, isIpv4: bool, proxied: bool): (reply: (Result<DnsRecord>, Store))
    ensures reply.1.log == st.log + [CreateRecordCall(zone.id, name, RrType(isIpv4), content, proxied)]
    ensures reply.1.zones == st.zones && reply.1.rejected == st.rejected
    ensures reply.0.Ok? <==> Accepts(st)
    ensures reply.0.Ok? ==>
      && reply.1.records == st.records + [reply.0.value]
      && reply.0.value == DnsRecord(st.nextId, zone.id, name, RrType(isIpv4), content, proxied)
    ensures reply.0.Err? ==> reply.1.records == st.records && reply.0.error == CreateFailed
  {
    var logged := st.(log := st.log + [CreateRecordCall(zone.id, name, RrType(isIpv4), content, proxied)]);
    var record := DnsRecord(st.nextId, zone.id, name, RrType(isIpv4), content, proxied);
    if !Accepts(st) then (Err(CreateFailed), logged)
    else (Ok(record), logged.(records := st.records + [record], nextId := st.nextId + 1))
  }

  /** `updateRecord`: reading `record.name` of `undefined` throws a
      `TypeError` before any request; otherwise the provider rewrites the
      record's content and flag, keeping its name and type. */
  function UpdateRecordReply(st: Store, record: Option<DnsRecord>, content: string, proxied: bool): (reply: (Result<DnsRecord>, Store))
    ensures record.None? ==> reply == (Err(HostError("TypeError")), st)
    ensures record.Some? ==>
      var x := record.value;
      && reply.1.log == st.log + [UpdateRecordCall(x.zoneId, x.id, x.name, x.rrType, content, proxied)]
      && reply.1.zones == st.zones && reply.1.rejected == st.rejected && reply.1.nextId == st.nextId
      && (reply.0.Ok? <==> Accepts(st))
      && (reply.0.Ok? ==> reply.1.records == Rewrite(st.records, x.id, content, proxied)
                          && reply.0.value == x.(content := content, proxied := proxied))
      && (reply.0.Err? ==> reply.1.records == st.records && reply.0.error == UpdateFailed)
  {
    match record
    case None => (Err(HostError("TypeError")), st)
    case Some(x) =>
      var logged := st.(log := st.log + [UpdateRecordCall(x.zoneId, x.id, x.name, x.rrType, content, proxied)]);
      if !Accepts(st) then (Err(UpdateFailed), logged)
      else (Ok(x.(content := content, proxied := proxied)), logged.(records := Rewrite(st.records, x.id, content, proxied)))
  }

  /** Creating a record keeps the ids distinct and below `nextId`. */
  lemma CreateKeepsWellFormed(st: Store, zone: Zone, name: string, content: string, isIpv4: bool, proxied: bool)
    requires WellFormed(st)
    ensures WellFormed(CreateRecordReply(st, zone, name, content, isIpv4, proxied).1)
  {
  }

  /** Updating a record keeps the ids distinct and below `nextId`. */
  lemma UpdateKeepsWellFormed(st: Store, record: Option<DnsRecord>, content: string, proxied: bool)
    requires WellFormed(st)
    ensures WellFormed(UpdateRecordReply(st, record, content, proxied).1)
  {
  }

  /** An update rewrites exactly the record that was found, in place: every
      other record is untouched. */
  lemma UpdateRewritesOnlyTarget(st: Store, x: DnsRecord, content: string, proxied: bool)
    requires WellFormed(st) && x in st.records
    ensures var reply := UpdateRecordReply(st, Some(x), content, proxied);
      reply.0.Ok? ==> forall i :: 0 <= i < |st.records| ==>
        reply.1.records[i] == if st.records[i] == x then x.(content := content, proxied := proxied) else st.records[i]
  {
    var reply := UpdateRecordReply(st, Some(x), content, proxied);
    if reply.0.Ok? {
      var k :| 0 <= k < |st.records| && st.records[k] == x;
      forall i | 0 <= i < |st.records|
        ensures reply.1.records[i] == if st.records[i] == x then x.(content := content, proxied := proxied) else st.records[i]
      {
        if st.records[i].id == x.id {
          assert i == k;
        }
      }
    }
  }

  /** The client object of lines 18-22 together with the provider it talks to.
      `token` and `baseUrl` are the fields of the JavaScript class; the rest
      is the provider's state. */
  class Cloudflare {
    const baseUrl: string
    const token: Option<string>
    const zones: seq<Zone>
    const rejected: set<nat>
    var records: seq<DnsRecord>
    var nextId: nat
    var log: seq<Call>

    function Snapshot(): Store
      reads this
    {
      Store(zones, records, nextId, log, rejected)
    }

    ghost predicate Valid()
      reads this
    {
      WellFormed(Snapshot())
    }

    /** `new Cloudflare({ token })` over a provider in the given state. */
    constructor (token: Option<string>, provider: Store)
      requires WellFormed(provider)
      ensures Valid()
      ensures baseUrl == "https://api.cloudflare.com/client/v4" && this.token == token
      ensures Snapshot() == provider
    {
      this.baseUrl := "https://api.cloudflare.com/client/v4";
      this.token := token;
      this.zones := provider.zones;
      this.rejected := provider.rejected;
      this.records := provider.records;
      this.nextId := provider.nextId;
      this.log := provider.log;
    }

    method FindZone(name: string) returns (r: Result<Zone>)
      requires Valid()
      modifies this
      ensures Valid()
      ensures (r, Snapshot()) == FindZoneReply(old(Snapshot()), name)
    {
      var success := Accepts(Snapshot());
      log := log + [FindZoneCall(name)];
      var found := FirstZoneNamed(zones, name);
      if !success || found.None? {
        r := Err(ZoneNotFound(name));
      } else {
        r := Ok(found.value);
      }
    }

    method FindRecord(zone: Zone, name: string, isIpv4: bool) returns (r: Result<Option<DnsRecord>>)
      requires Valid()
      modifies this
      ensures Valid()
      ensures (r, Snapshot()) == FindRecordReply(old(Snapshot()), zone, name, isIpv4)
    {
      var rrType := RrType(isIpv4);
      var success := Accepts(Snapshot());
      log := log + [FindRecordCall(zone.id, name)];
      var result := RecordsNamed(records, zone.id, name);
      if !success || |result| == 0 {
        r := Err(RecordNotFound(name));
        return;
      }
      // result.filter(rr => rr.type === rrType)[0]
      var i := 0;
      while i < |result| && result[i].rrType != rrType
        invariant 0 <= i <= |result|
        invariant forall j :: 0 <= j < i ==> result[j].rrType != rrType
      {
        i := i + 1;
      }
      FirstOfTypeAt(result, rrType, i);
      r := Ok(if i < |result| then Some(result[i]) else None);
    }

    method CreateRecord(zone: Zone, name: string, content: string, isIpv4: bool, proxied: bool) returns (r: Result<DnsRecord>)
      requires Valid()
      modifies this
      ensures Valid()
      ensures (r, Snapshot()) == CreateRecordReply(old(Snapshot()), zone, name, content, isIpv4, proxied)
    {
      var record := DnsRecord(nextId, zone.id, name, RrType(isIpv4), content, proxied);
      var success := Accepts(Snapshot());
      log := log + [CreateRecordCall(zone.id, name, RrType(isIpv4), content, proxied)];
      if !success {
        r := Err(CreateFailed);
      } else {
        records := records + [record];
        nextId := nextId + 1;
        r := Ok(record);
      }
    }

    method UpdateRecord(record: Option<DnsRecord>, content: string, proxied: bool) returns (r: Result<DnsRecord>)
      requires Valid()
      modifies this
      ensures Valid()
      ensures (r, Snapshot()) == UpdateRecordReply(old(Snapshot()), record, content, proxied)
    {
      if record.None? {
        r := Err(HostError("TypeError"));
        return;
      }
      var x := record.value;
      UpdateKeepsWellFormed(Snapshot(), record, content, proxied);
      var success := Accepts(Snapshot());
      log := log + [UpdateRecordCall(x.zoneId, x.id, x.name, x.rrType, content, proxied)];
      if !success {
        r := Err(UpdateFailed);
      } else {
        records := Rewrite(records, x.id, content, proxied);
        r := Ok(x.(content := content, proxied := proxied));
      }
    }
  }
}
