/** The `powerdns_zone` resource: the mapping between its Terraform model and a zone, the choice
    of the ID the API is addressed with, and the create/read/update/delete/import handlers. */
module ZoneResource {
  import opened Wrappers
  import opened GoTypes
  import opened Framework
  import PowerDns

  /** `ZoneResourceModel`. */
  datatype ZoneModel = ZoneModel(id: Attr<string>, serverId: Attr<string>, name: Attr<string>, kind: Attr<string>)

  /** The state an import starts from: every attribute null. */
  const NullModel := ZoneModel(Null, Null, Null, Null)

  /** `zoneResourceDataToObject`: writes ID, name and kind into `zone` and nothing else. */
  function ZoneResourceDataToObject(data: ZoneModel, zone: PowerDns.Zone): (r: PowerDns.Zone)
    ensures r.id == ValueString(data.id) && r.name == ValueString(data.name) && r.kind == ValueString(data.kind)
    ensures r.dnssec == zone.dnssec && r.serial == zone.serial && r.masters == zone.masters &&
            r.recordSets == zone.recordSets
  {
    zone.(id := ValueString(data.id), name := ValueString(data.name), kind := ValueString(data.kind))
  }

  /** `zoneObjectToResourceData`: overwrites the model's ID, name and kind from `zone`. */
  function ZoneObjectToResourceData(zone: PowerDns.Zone, data: ZoneModel): (r: ZoneModel)
    ensures r.id == Known(zone.id) && r.name == Known(zone.name) && r.kind == Known(zone.kind)
    ensures r.serverId == data.serverId
  {
    data.(id := Known(zone.id), name := Known(zone.name), kind := Known(zone.kind))
  }

  /** Create and Update start from Go's zero zone, so DNSSEC, serial, masters and record sets are
      sent as zero values: the wire body carries no RRSets. */
  lemma ObjectFromModelIsZeroElsewhere(data: ZoneModel)
    ensures var zone := ZoneResourceDataToObject(data, PowerDns.ZeroZone);
            zone.id == ValueString(data.id) && zone.name == ValueString(data.name) &&
            zone.kind == ValueString(data.kind) &&
            !zone.dnssec && zone.serial == 0 && zone.masters == [] && zone.recordSets == [] &&
            PowerDns.ZoneToWire(zone).rrsets == [] && PowerDns.ZoneToWire(zone).id == ""
  {
  }

  /** Model -> zone -> model keeps the server ID and every known one of ID, name and kind; an
      unknown or null one comes back as the known empty string. */
  lemma ModelRoundTrip(data: ZoneModel, zone: PowerDns.Zone)
    ensures var d := ZoneObjectToResourceData(ZoneResourceDataToObject(data, zone), data);
            d.serverId == data.serverId &&
            d.id == Known(ValueString(data.id)) && d.name == Known(ValueString(data.name)) &&
            d.kind == Known(ValueString(data.kind)) &&
            (data.id.Known? ==> d.id == data.id) && (data.name.Known? ==> d.name == data.name) &&
            (data.kind.Known? ==> d.kind == data.kind)
  {
  }

  /** Zone -> model -> zone brings back the zone's ID, name and kind. */
  lemma ObjectRoundTrip(zone: PowerDns.Zone, data: ZoneModel, target: PowerDns.Zone)
    ensures var z := ZoneResourceDataToObject(ZoneObjectToResourceData(zone, data), target);
            z.id == zone.id && z.name == zone.name && z.kind == zone.kind &&
            z.dnssec == target.dnssec && z.serial == target.serial && z.masters == target.masters &&
            z.recordSets == target.recordSets
  {
  }

  /** The ID `Read` and `Update` address the zone by: the ID when it is neither unknown nor null,
      otherwise the name. */
  function LookupId(data: ZoneModel): (r: string)
    ensures data.id.Known? ==> r == data.id.value
    ensures !data.id.Known? ==> r == ValueString(data.name)
    ensures !data.id.Known? && !data.name.Known? ==> r == ""
  {
    if !data.id.Unknown? && !data.id.Null? then data.id.value else ValueString(data.name)
  }

  /** `Delete` has no such fallback: with a null ID it addresses the zone "" even when a name is
      known. */
  lemma DeleteHasNoFallback(name: string)
    requires name != ""
    ensures var data := NullModel.(name := Known(name));
            LookupId(data) == name && ValueString(data.id) == ""
  {
  }

  // ---------------------------------------------------------------------------------------------
  // Handlers. `got` and `data` are what `req.Plan/State.Get` delivered.

  /** `Create`, with the error message naming the planned zone (see the findings). */
  method Create(api: PowerDns.ZonesApi, got: seq<Diagnostic>, data: ZoneModel, resp: Response<ZoneModel>)
    requires PowerDns.RepliesComplete(api)
    modifies resp
    ensures var ds0 := AppendUnique(old(resp.diagnostics), got);
            var zone := ZoneResourceDataToObject(data, PowerDns.ZeroZone);
            var created := PowerDns.CreateZone(api, ValueString(data.serverId), zone);
            if HasError(ds0) then resp.diagnostics == ds0 && resp.state == old(resp.state)
            else if created.Failure? then
              resp.diagnostics == AppendUnique(ds0, [Error("API Error", "Unable to create zone '" +
                                                    ValueString(data.name) + "': " + created.error.message)]) &&
              resp.state == old(resp.state)
            else resp.diagnostics == ds0 && resp.state == Some(ZoneObjectToResourceData(created.value, data))
  {
    resp.Append(got);
    if HasError(resp.diagnostics) {
      return;
    }
    var zone := ZoneResourceDataToObject(data, PowerDns.ZeroZone);
    var serverId := ValueString(data.serverId);
    var created := PowerDns.CreateZone(api, serverId, zone);
    if created.Failure? {
      resp.AddError("API Error", "Unable to create zone '" + zone.name + "': " + created.error.message);
      return;
    }
    resp.SetState(ZoneObjectToResourceData(created.value, data));
  }

  /** `Read`: the zone addressed by `LookupId` replaces ID, name and kind in the state. */
  method Read(api: PowerDns.ZonesApi, got: seq<Diagnostic>, data: ZoneModel, resp: Response<ZoneModel>)
    requires PowerDns.RepliesComplete(api)
    modifies resp
    ensures var ds0 := AppendUnique(old(resp.diagnostics), got);
            var id := LookupId(data);
            var zone := PowerDns.GetZone(api, ValueString(data.serverId), id);
            if HasError(ds0) then resp.diagnostics == ds0 && resp.state == old(resp.state)
            else if zone.Failure? then
              resp.diagnostics == AppendUnique(ds0, [Error("API Error", "Unable to get zone '" + id + "': " +
                                                    zone.error.message)]) &&
              resp.state == old(resp.state)
            else resp.diagnostics == ds0 && resp.state == Some(ZoneObjectToResourceData(zone.value, data))
  {
    resp.Append(got);
    if HasError(resp.diagnostics) {
      return;
    }
    var id: string;
    if !data.id.Unknown? && !data.id.Null? {
      id := data.id.value;
    } else {
      id := ValueString(data.name);
    }
    var serverId := ValueString(data.serverId);
    var zone := PowerDns.GetZone(api, serverId, id);
    if zone.Failure? {
      resp.AddError("API Error", "Unable to get zone '" + id + "': " + zone.error.message);
      return;
    }
    resp.SetState(ZoneObjectToResourceData(zone.value, data));
  }

  /** `Update`: PUTs the planned ID, name and kind (everything else zero) to the zone addressed
      by `LookupId`, then stores what `GetZone` re-reads, not the plan. The state is set only when
      both calls succeed. */
  method Update(api: PowerDns.ZonesApi, got: seq<Diagnostic>, data: ZoneModel, resp: Response<ZoneModel>)
    requires PowerDns.RepliesComplete(api)
    modifies resp
    ensures var ds0 := AppendUnique(old(resp.diagnostics), got);
            var id, serverId := LookupId(data), ValueString(data.serverId);
            var updated := PowerDns.UpdateZone(api, serverId, id, ZoneResourceDataToObject(data, PowerDns.ZeroZone));
            var zone := PowerDns.GetZone(api, serverId, id);
            if HasError(ds0) then resp.diagnostics == ds0 && resp.state == old(resp.state)
            else if updated.Fail? then
              resp.diagnostics == AppendUnique(ds0, [Error("API Error", "Unable to update zone '" + id + "': " +
                                                    updated.error.message)]) &&
              resp.state == old(resp.state)
            else if zone.Failure? then
              resp.diagnostics == AppendUnique(ds0, [Error("API Error", "Unable to get zone '" + id + "': " +
                                                    zone.error.message)]) &&
              resp.state == old(resp.state)
            else resp.diagnostics == ds0 && resp.state == Some(ZoneObjectToResourceData(zone.value, data))
  {
    resp.Append(got);
    if HasError(resp.diagnostics) {
      return;
    }
    var planned := ZoneResourceDataToObject(data, PowerDns.ZeroZone);
    var id: string;
    if !data.id.Unknown? && !data.id.Null? {
      id := data.id.value;
    } else {
      id := ValueString(data.name);
    }
    var serverId := ValueString(data.serverId);
    var updated := PowerDns.UpdateZone(api, serverId, id, planned);
    if updated.Fail? {
      resp.AddError("API Error", "Unable to update zone '" + id + "': " + updated.error.message);
      return;
    }
    var zone := PowerDns.GetZone(api, serverId, id);
    if zone.Failure? {
      resp.AddError("API Error", "Unable to get zone '" + id + "': " + zone.error.message);
      return;
    }
    resp.SetState(ZoneObjectToResourceData(zone.value, data));
  }

  /** `Delete`: addresses the zone by its ID only; the resource leaves the state only after the
      client reports no error. */
  method Delete(api: PowerDns.ZonesApi, got: seq<Diagnostic>, data: ZoneModel, resp: Response<ZoneModel>)
    modifies resp
    ensures var ds0 := AppendUnique(old(resp.diagnostics), got);
            var zoneId := ValueString(data.id);
            var deleted := PowerDns.DeleteZone(api, ValueString(data.serverId), zoneId);
            if HasError(ds0) then resp.diagnostics == ds0 && resp.state == old(resp.state)
            else if deleted.Fail? then
              resp.diagnostics == AppendUnique(ds0, [Error("API Error", "Unable to delete zone '" + zoneId + "': " +
                                                    deleted.error.message)]) &&
              resp.state == old(resp.state)
            else resp.diagnostics == ds0 && resp.state == None
  {
    resp.Append(got);
    if HasError(resp.diagnostics) {
      return;
    }
    var zoneId, serverId := ValueString(data.id), ValueString(data.serverId);
    var deleted := PowerDns.DeleteZone(api, serverId, zoneId);
    if deleted.Fail? {
      resp.AddError("API Error", "Unable to delete zone '" + zoneId + "': " + deleted.error.message);
      return;
    }
    resp.RemoveResource();
  }

  /** `ImportState`: the ID must split on '/' into exactly two parts, which become server_id and
      id (name and kind are left alone); otherwise one error and nothing is set. */
  method ImportState(id: string, resp: Response<ZoneModel>)
    modifies resp
    ensures var parts := Split(id, '/');
            if |parts| != 2 then
              resp.diagnostics == AppendUnique(old(resp.diagnostics), [Error("Resource Import ID invalid",
                "ID '" + id + "' should be in format 'server_id/zone_id'")]) &&
              resp.state == old(resp.state)
            else
              resp.diagnostics == old(resp.diagnostics) &&
              resp.state == Some(old(resp.state).GetOr(NullModel).(serverId := Known(parts[0]), id := Known(parts[1])))
  {
    var splittedId := Split(id, '/');
    if |splittedId| != 2 {
      resp.AddError("Resource Import ID invalid", "ID '" + id + "' should be in format 'server_id/zone_id'");
      return;
    }
    var serverId, zoneId := splittedId[0], splittedId[1];
    var base := resp.state.GetOr(NullModel);
    resp.state := Some(base.(serverId := Known(serverId)));
    resp.state := Some(resp.state.value.(id := Known(zoneId)));
  }

  /** The import ID of the acceptance test, `localhost/<zone name>`, is accepted, and the zone it
      imports is then read by that zone name through its ID. */
  lemma ImportIdOfTest(zoneName: string)
    requires '/' !in zoneName
    ensures Split("localhost/" + zoneName, '/') == ["localhost", zoneName]
    ensures LookupId(NullModel.(serverId := Known("localhost"), id := Known(zoneName))) == zoneName
  {
    SplitNoSeparator(zoneName, '/');
    assert "localhost/" + zoneName == "localhost" + ['/'] + zoneName;
    SplitAfterPart("localhost", '/', zoneName);
  }

  // ---------------------------------------------------------------------------------------------
  // As written, Create's error path dereferences a nil zone

  /** The `zone` pointer after `zone, err := r.client.CreateZone(...)`, which reassigns it: nil
      whenever an error comes back. */
  function ZoneAfterCreate(r: Result<PowerDns.Zone, PowerDns.Error>): Option<PowerDns.Zone>
  {
    match r
    case Success(z) => Some(z)
    case Failure(_) => None
  }

  /** The error detail as written, formatted from `zone.Name`; `None` where that reads through a
      nil pointer. */
  function CreateErrorDetailAsWritten(zone: Option<PowerDns.Zone>, err: PowerDns.Error): Option<string>
  {
    match zone
    case None => None
    case Some(z) => Some("Unable to create zone '" + z.name + "': " + err.message)
  }

  /** On every error path of `Create` the detail as written dereferences nil: the local checks
      and the server's errors alike return no zone. */
  lemma CreateErrorPathDereferencesNil(api: PowerDns.ZonesApi, serverId: string, zone: PowerDns.Zone)
    requires PowerDns.RepliesComplete(api)
    requires PowerDns.CreateZone(api, serverId, zone).Failure?
    ensures var r := PowerDns.CreateZone(api, serverId, zone);
            CreateErrorDetailAsWritten(ZoneAfterCreate(r), r.error) == None
  {
  }

  /** For instance a plan without a name, which fails before the server is asked. */
  lemma CreateWithoutNameDereferencesNil(api: PowerDns.ZonesApi, data: ZoneModel)
    requires PowerDns.RepliesComplete(api)
    requires data.name.Null?
    ensures var r := PowerDns.CreateZone(api, ValueString(data.serverId), ZoneResourceDataToObject(data, PowerDns.ZeroZone));
            r == Failure(PowerDns.Error("zone name is required")) &&
            CreateErrorDetailAsWritten(ZoneAfterCreate(r), r.error) == None
  {
  }
}
