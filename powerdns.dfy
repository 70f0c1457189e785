/** The PowerDNS client layer: domain structs, the wire DTOs, the transforms between them and the
    zone operations, with the HTTP API itself as an uninterpreted oracle. */
module PowerDns {
  import opened Wrappers
  import opened GoTypes

  /** A resource record set as the provider handles it. */
  datatype RecordSet = RecordSet(name: string, rtype: string, ttl: Int64, records: seq<string>)

  /** A zone as the provider handles it; `id` is assigned by the server. */
  datatype Zone = Zone(id: string, name: string, kind: string, dnssec: bool, serial: Int64,
                       masters: seq<string>, recordSets: seq<RecordSet>)

  /** Go's zero values `powerdns.RecordSet{}` and `powerdns.Zone{}`. */
  const ZeroRecordSet := RecordSet("", "", 0, [])
  const ZeroZone := Zone("", "", "", false, 0, [], [])

  /** Wire `models.Record`; its content is a pointer. */
  datatype WireRecord = WireRecord(content: Option<string>)

  /** Wire `models.RRSet`; name, type and TTL are pointers. */
  datatype WireRRSet = WireRRSet(name: Option<string>, rtype: Option<string>, ttl: Option<Int64>,
                                 records: seq<WireRecord>)

  /** Wire `models.Zone`, restricted to the fields the provider reads or writes. */
  datatype WireZone = WireZone(id: string, name: string, kind: string, dnssec: bool, serial: Int64,
                               masters: seq<string>, rrsets: seq<WireRRSet>)

  /** A Go `error`, reduced to its message. */
  datatype Error = Error(message: string)

  // ---------------------------------------------------------------------------------------------
  // Domain -> wire

  /** The wire form of one record set: every field captured from that record set itself. */
  function RecordSetToWire(rs: RecordSet): WireRRSet
  {
    WireRRSet(Some(rs.name), Some(rs.rtype), Some(rs.ttl),
              seq(|rs.records|, j requires 0 <= j < |rs.records| => WireRecord(Some(rs.records[j]))))
  }

  /** The wire form of a zone; the wire ID is never set. */
  function ZoneToWire(zone: Zone): WireZone
  {
    WireZone("", zone.name, zone.kind, zone.dnssec, zone.serial, zone.masters,
             seq(|zone.recordSets|, i requires 0 <= i < |zone.recordSets| => RecordSetToWire(zone.recordSets[i])))
  }

  /** `transformZoneToAPI`: preallocated slices filled index by index. Each record and each
      record set is captured per element (Go 1.22 loop-variable semantics). */
  method TransformZoneToApi(zone: Zone) returns (w: WireZone)
    ensures w == ZoneToWire(zone)
    ensures w.id == "" && w.name == zone.name && w.kind == zone.kind && w.dnssec == zone.dnssec &&
            w.serial == zone.serial && w.masters == zone.masters
    ensures |w.rrsets| == |zone.recordSets|
    ensures forall i :: 0 <= i < |zone.recordSets| ==>
              var rs, wr := zone.recordSets[i], w.rrsets[i];
              wr.name == Some(rs.name) && wr.rtype == Some(rs.rtype) && wr.ttl == Some(rs.ttl) &&
              |wr.records| == |rs.records| &&
              forall j :: 0 <= j < |rs.records| ==> wr.records[j].content == Some(rs.records[j])
  {
    var rrsets := new WireRRSet[|zone.recordSets|];
    var i := 0;
    while i < |zone.recordSets|
      invariant 0 <= i <= |zone.recordSets|
      invariant forall k :: 0 <= k < i ==> rrsets[k] == RecordSetToWire(zone.recordSets[k])
    {
      var recordset := zone.recordSets[i];
      var records := new WireRecord[|recordset.records|];
      var j := 0;
      while j < |recordset.records|
        modifies records
        invariant 0 <= j <= |recordset.records|
        invariant forall k :: 0 <= k < j ==> records[k] == WireRecord(Some(recordset.records[k]))
      {
        var record := recordset.records[j];
        records[j] := WireRecord(Some(record));
        j := j + 1;
      }
      assert records[..] == RecordSetToWire(recordset).records;
      rrsets[i] := WireRRSet(Some(recordset.name), Some(recordset.rtype), Some(recordset.ttl), records[..]);
      i := i + 1;
    }
    w := WireZone("", zone.name, zone.kind, zone.dnssec, zone.serial, zone.masters, rrsets[..]);
  }

  /** `transformZoneToAPI` as it behaves when a `for ... range` variable is one slot per loop
      (Go before 1.22): every record of a set points at that set's last content, and every record
      set's name, type and TTL point at the last record set's. */
  function ZoneToWireSharedSlot(zone: Zone): WireZone
  {
    var n := |zone.recordSets|;
    WireZone("", zone.name, zone.kind, zone.dnssec, zone.serial, zone.masters,
             seq(n, i requires 0 <= i < n => RecordSetToWireSharedSlot(zone.recordSets[i], zone.recordSets[n - 1])))
  }

  /** One record set under shared slots; `last` is the record set the outer slot holds at the end. */
  function RecordSetToWireSharedSlot(rs: RecordSet, last: RecordSet): WireRRSet
  {
    var m := |rs.records|;
    WireRRSet(Some(last.name), Some(last.rtype), Some(last.ttl),
              seq(m, j requires 0 <= j < m => WireRecord(Some(rs.records[m - 1]))))
  }

  // ---------------------------------------------------------------------------------------------
  // Wire -> domain

  /** The pointers that `transformAPIToZone` dereferences without a nil check are all set. */
  predicate RRSetComplete(r: WireRRSet)
  {
    r.name.Some? && r.rtype.Some? && r.ttl.Some? &&
    forall j :: 0 <= j < |r.records| ==> r.records[j].content.Some?
  }

  predicate ZoneComplete(w: WireZone)
  {
    forall i :: 0 <= i < |w.rrsets| ==> RRSetComplete(w.rrsets[i])
  }

  /** One RRSet flattened into a record set. */
  function WireToRecordSet(r: WireRRSet): RecordSet
    requires RRSetComplete(r)
  {
    RecordSet(r.name.value, r.rtype.value, r.ttl.value,
              seq(|r.records|, j requires 0 <= j < |r.records| => r.records[j].content.value))
  }

  /** A wire zone as a domain zone, keeping the server-assigned ID. */
  function WireToZone(w: WireZone): Zone
    requires ZoneComplete(w)
  {
    Zone(w.id, w.name, w.kind, w.dnssec, w.serial, w.masters,
         seq(|w.rrsets|, i requires 0 <= i < |w.rrsets| => WireToRecordSet(w.rrsets[i])))
  }

  /** `transformAPIToZone`: preallocated slices filled index by index. */
  method TransformApiToZone(w: WireZone) returns (zone: Zone)
    requires ZoneComplete(w)
    ensures zone == WireToZone(w)
    ensures zone.id == w.id && zone.name == w.name && zone.kind == w.kind && zone.dnssec == w.dnssec &&
            zone.serial == w.serial && zone.masters == w.masters
    ensures |zone.recordSets| == |w.rrsets|
    ensures forall i :: 0 <= i < |w.rrsets| ==>
              var wr, rs := w.rrsets[i], zone.recordSets[i];
              Some(rs.name) == wr.name && Some(rs.rtype) == wr.rtype && Some(rs.ttl) == wr.ttl &&
              |rs.records| == |wr.records| &&
              forall j :: 0 <= j < |wr.records| ==> Some(rs.records[j]) == wr.records[j].content
  {
    var recordsets := new RecordSet[|w.rrsets|];
    var i := 0;
    while i < |w.rrsets|
      invariant 0 <= i <= |w.rrsets|
      invariant forall k :: 0 <= k < i ==> recordsets[k] == WireToRecordSet(w.rrsets[k])
    {
      var rrset := w.rrsets[i];
      var records := new string[|rrset.records|];
      var j := 0;
      while j < |rrset.records|
        modifies records
        invariant 0 <= j <= |rrset.records|
        invariant forall k :: 0 <= k < j ==> records[k] == rrset.records[k].content.value
      {
        records[j] := rrset.records[j].content.value;
        j := j + 1;
      }
      assert records[..] == WireToRecordSet(rrset).records;
      recordsets[i] := RecordSet(rrset.name.value, rrset.rtype.value, rrset.ttl.value, records[..]);
      i := i + 1;
    }
    zone := Zone(w.id, w.name, w.kind, w.dnssec, w.serial, w.masters, recordsets[..]);
  }

  // ---------------------------------------------------------------------------------------------
  // Round trips

  /** Domain -> wire -> domain is the identity except that the ID is cleared. */
  lemma ZoneRoundTrip(zone: Zone)
    ensures ZoneComplete(ZoneToWire(zone))
    ensures WireToZone(ZoneToWire(zone)) == zone.(id := "")
  {
    var w := ZoneToWire(zone);
    forall i | 0 <= i < |zone.recordSets|
      ensures RRSetComplete(w.rrsets[i]) && WireToRecordSet(w.rrsets[i]) == zone.recordSets[i]
    {
      var rs := zone.recordSets[i];
      assert WireToRecordSet(RecordSetToWire(rs)).records == rs.records;
    }
    assert WireToZone(w).recordSets == zone.recordSets;
  }

  /** Wire -> domain -> wire is the identity on complete zones except that the ID is cleared. */
  lemma WireRoundTrip(w: WireZone)
    requires ZoneComplete(w)
    ensures ZoneToWire(WireToZone(w)) == w.(id := "")
  {
    var zone := WireToZone(w);
    forall i | 0 <= i < |w.rrsets|
      ensures RecordSetToWire(zone.recordSets[i]) == w.rrsets[i]
    {
      var r := w.rrsets[i];
      assert RecordSetToWire(WireToRecordSet(r)).records == r.records;
    }
    assert ZoneToWire(zone).rrsets == w.rrsets;
  }

  /** Under shared slots the round trip fails as soon as one record set holds two distinct
      contents: some record comes back as that set's last content instead of its own. */
  lemma {:induction false} SharedSlotBreaksRoundTrip(zone: Zone, i: nat, j1: nat, j2: nat)
    requires i < |zone.recordSets|
    requires j1 < |zone.recordSets[i].records| && j2 < |zone.recordSets[i].records|
    requires zone.recordSets[i].records[j1] != zone.recordSets[i].records[j2]
    ensures ZoneComplete(ZoneToWireSharedSlot(zone))
    ensures WireToZone(ZoneToWireSharedSlot(zone)) != zone.(id := "")
  {
    var w := ZoneToWireSharedSlot(zone);
    var rs := zone.recordSets[i];
    var m := |rs.records|;
    var j := if rs.records[j1] != rs.records[m - 1] then j1 else j2;
    assert rs.records[j] != rs.records[m - 1];
    assert w.rrsets[i] == RecordSetToWireSharedSlot(rs, zone.recordSets[|zone.recordSets| - 1]);
    assert w.rrsets[i].records[j].content == Some(rs.records[m - 1]);
    assert WireToZone(w).recordSets[i].records[j] == rs.records[m - 1];
  }

  /** A concrete instance: one A record set with two addresses comes back with the second
      address twice. */
  lemma SharedSlotExample()
    ensures var zone := Zone("", "example.net.", "Native", false, 0, [],
                             [RecordSet("www.example.net.", "A", 300, ["192.0.2.1", "192.0.2.2"])]);
            ZoneComplete(ZoneToWireSharedSlot(zone)) &&
            WireToZone(ZoneToWireSharedSlot(zone)).recordSets[0].records == ["192.0.2.2", "192.0.2.2"] &&
            WireToZone(ZoneToWire(zone)).recordSets[0].records == ["192.0.2.1", "192.0.2.2"]
  {
    var zone := Zone("", "example.net.", "Native", false, 0, [],
                     [RecordSet("www.example.net.", "A", 300, ["192.0.2.1", "192.0.2.2"])]);
    ZoneRoundTrip(zone);
    var back := WireToZone(ZoneToWireSharedSlot(zone)).recordSets[0].records;
    assert |back| == 2 && back[0] == "192.0.2.2" && back[1] == "192.0.2.2";
  }

  // ---------------------------------------------------------------------------------------------
  // The HTTP API as an oracle

  /** Parameters of the generated `CreateZone` call. */
  datatype CreateZoneParams = CreateZoneParams(serverId: string, zoneStruct: WireZone, rrsets: Option<bool>)

  /** Parameters of the generated `PutZone` call. */
  datatype PutZoneParams = PutZoneParams(serverId: string, zoneId: string, zoneStruct: WireZone)

  /** The zone endpoints of the generated client, as the server answers them. */
  datatype ZonesApi = ZonesApi(
    createZone: CreateZoneParams -> Result<WireZone, Error>,
    listZone: (string, string) -> Result<WireZone, Error>,
    putZone: PutZoneParams -> Outcome<Error>,
    deleteZone: (string, string) -> Outcome<Error>)

  /** The server's zone payloads carry every RRSet field the transform dereferences. */
  ghost predicate RepliesComplete(api: ZonesApi)
  {
    (forall p :: api.createZone(p).Success? ==> ZoneComplete(api.createZone(p).value)) &&
    (forall s, z :: api.listZone(s, z).Success? ==> ZoneComplete(api.listZone(s, z).value))
  }

  /** The record-set operations of the client. They are called by the resources but defined in
      files that are not part of this model, so they stay uninterpreted:
      (serverId, zoneId, name, type) for `GetRecordSet`, (serverId, zoneId, recordset) for the rest. */
  datatype RecordSetsApi = RecordSetsApi(
    getRecordSet: (string, string, string, string) -> Result<RecordSet, Error>,
    createRecordSet: (string, string, RecordSet) -> Result<RecordSet, Error>,
    updateRecordSet: (string, string, RecordSet) -> Outcome<Error>,
    deleteRecordSet: (string, string, RecordSet) -> Outcome<Error>)

  // ---------------------------------------------------------------------------------------------
  // Client operations

  /** The request `CreateZone` sends once the local checks pass: the zone's wire form, asking
      for the record sets in the reply. */
  function CreateZoneRequest(serverId: string, zone: Zone): CreateZoneParams
  {
    CreateZoneParams(serverId, ZoneToWire(zone), Some(true))
  }

  /** `Client.CreateZone`. A missing name, then a missing kind, fails locally whatever the server
      would have answered; otherwise a server error comes back unchanged and a reply is
      transformed into a zone. */
  function CreateZone(api: ZonesApi, serverId: string, zone: Zone): (r: Result<Zone, Error>)
    requires RepliesComplete(api)
    ensures zone.name == "" ==> r == Failure(Error("zone name is required"))
    ensures zone.name != "" && zone.kind == "" ==> r == Failure(Error("zone kind is required"))
    ensures zone.name != "" && zone.kind != "" ==>
              var reply := api.createZone(CreateZoneRequest(serverId, zone));
              (reply.Failure? ==> r == Failure(reply.error)) &&
              (reply.Success? ==> r.Success? && r.value.id == reply.value.id &&
                                  ZoneToWire(r.value) == reply.value.(id := ""))
  {
    if zone.name == "" then Failure(Error("zone name is required"))
    else if zone.kind == "" then Failure(Error("zone kind is required"))
    else
      match api.createZone(CreateZoneRequest(serverId, zone))
      case Failure(e) => Failure(e)
      case Success(payload) =>
        WireRoundTrip(payload);
        Success(WireToZone(payload))
  }

  /** `Client.GetZone`: the server error unchanged, or the reply as a zone. */
  function GetZone(api: ZonesApi, serverId: string, zoneId: string): (r: Result<Zone, Error>)
    requires RepliesComplete(api)
    ensures api.listZone(serverId, zoneId).Failure? ==> r == Failure(api.listZone(serverId, zoneId).error)
    ensures api.listZone(serverId, zoneId).Success? ==>
              r.Success? && r.value.id == api.listZone(serverId, zoneId).value.id &&
              ZoneToWire(r.value) == api.listZone(serverId, zoneId).value.(id := "")
  {
    match api.listZone(serverId, zoneId)
    case Failure(e) => Failure(e)
    case Success(payload) =>
      WireRoundTrip(payload);
      Success(WireToZone(payload))
  }

  /** `Client.UpdateZone`: no local checks; the zone's wire form is PUT to the zone named by
      `zoneId` and only the error is kept. The body is complete and carries the whole zone except
      its ID, which travels only in the path. */
  function UpdateZone(api: ZonesApi, serverId: string, zoneId: string, zone: Zone): (r: Outcome<Error>)
    ensures var body := ZoneToWire(zone);
            r == api.putZone(PutZoneParams(serverId, zoneId, body)) &&
            body.id == "" && ZoneComplete(body) && WireToZone(body) == zone.(id := "")
  {
    ZoneRoundTrip(zone);
    api.putZone(PutZoneParams(serverId, zoneId, ZoneToWire(zone)))
  }

  /** Unlike `CreateZone`, `UpdateZone` checks nothing locally: a zone with neither name nor kind
      still goes to the server, as the zero wire zone. */
  lemma UpdateZoneSkipsLocalChecks(api: ZonesApi, serverId: string, zoneId: string)
    requires RepliesComplete(api)
    ensures CreateZone(api, serverId, ZeroZone) == Failure(Error("zone name is required"))
    ensures UpdateZone(api, serverId, zoneId, ZeroZone) ==
            api.putZone(PutZoneParams(serverId, zoneId, WireZone("", "", "", false, 0, [], [])))
  {
    assert ZoneToWire(ZeroZone).rrsets == [];
  }

  /** `Client.DeleteZone`: no local checks, and only the server's error is kept. */
  function DeleteZone(api: ZonesApi, serverId: string, zoneId: string): (r: Outcome<Error>)
    ensures r == api.deleteZone(serverId, zoneId)
  {
    api.deleteZone(serverId, zoneId)
  }

  /** Creating `example.com.` (Native) against a server that answers with the zone and no RRSets
      gives that zone with its server-assigned ID and no record sets. */
  lemma CreateZoneExample(api: ZonesApi)
    requires RepliesComplete(api)
    requires api.createZone(CreateZoneRequest("localhost", ZeroZone.(name := "example.com.", kind := "Native")))
             == Success(WireZone("example.com.", "example.com.", "Native", false, 0, [], []))
    ensures CreateZone(api, "localhost", ZeroZone.(name := "example.com.", kind := "Native"))
            == Success(Zone("example.com.", "example.com.", "Native", false, 0, [], []))
  {
  }
}
