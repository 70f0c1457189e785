/** The `powerdns_recordset` resource: the mapping between its Terraform model and a record set,
    its state ID, and the create/read/update/delete/import handlers. */
module RecordsetResource {
  import opened Wrappers
  import opened GoTypes
  import opened Framework
  import PowerDns

  /** `RecordsetResourceModel`. */
  datatype RecordsetModel = RecordsetModel(id: Attr<string>, zoneId: Attr<string>, serverId: Attr<string>,
                                           name: Attr<string>, rtype: Attr<string>, ttl: Attr<Int64>,
                                           records: Attr<seq<Attr<string>>>)

  /** The state an import starts from: every attribute null. */
  const NullModel := RecordsetModel(Null, Null, Null, Null, Null, Null, Null)

  /** The state ID `zone_id/name/type` (`fmt.Sprintf("%s/%s/%s", ...)`). */
  function StateId(zoneId: string, name: string, rtype: string): string
  {
    zoneId + "/" + name + "/" + rtype
  }

  /** A state ID built from slash-free parts can be taken apart again. */
  lemma StateIdSplits(zoneId: string, name: string, rtype: string)
    requires '/' !in zoneId && '/' !in name && '/' !in rtype
    ensures Split(StateId(zoneId, name, rtype), '/') == [zoneId, name, rtype]
  {
    SplitJoined3(zoneId, name, rtype, '/');
  }

  /** `RecordsetResourceModelToObject`: copies name, type, TTL and records into `recordset`; when
      the records cannot be converted it returns the conversion's diagnostics before writing
      any field. */
  function RecordsetResourceModelToObject(data: RecordsetModel, recordset: PowerDns.RecordSet)
    : (r: (PowerDns.RecordSet, seq<Diagnostic>))
    ensures HasError(r.1) <==> ElementsAsStrings(data.records).Failure?
    ensures HasError(r.1) ==> r.0 == recordset
    ensures !HasError(r.1) ==>
              r.1 == [] && r.0.name == ValueString(data.name) && r.0.rtype == ValueString(data.rtype) &&
              r.0.ttl == data.ttl.ValueOr(0) &&
              (data.records.Null? ==> r.0.records == []) &&
              (data.records.Known? ==>
                 |r.0.records| == |data.records.value| &&
                 forall k :: 0 <= k < |r.0.records| ==> data.records.value[k] == Known(r.0.records[k]))
  {
    match ElementsAsStrings(data.records)
    case Failure(diags) => (recordset, diags)
    case Success(records) =>
      (recordset.(name := ValueString(data.name), rtype := ValueString(data.rtype),
                  ttl := data.ttl.ValueOr(0), records := records), [])
  }

  /** What `recordsetObjectToResourceData` leaves in the model: the ID from the model's own zone
      ID, name and type (read before they are overwritten), then name, type, TTL and records
      from the record set; zone and server IDs untouched. */
  function ResourceDataOf(recordset: PowerDns.RecordSet, data: RecordsetModel): RecordsetModel
  {
    data.(id := Known(StateId(ValueString(data.zoneId), ValueString(data.name), ValueString(data.rtype))),
          name := Known(recordset.name), rtype := Known(recordset.rtype), ttl := Known(recordset.ttl),
          records := StringList(recordset.records))
  }

  /** `recordsetObjectToResourceData`: builds the records list element by element and overwrites
      the model's fields; the list conversion reports nothing for known strings. */
  method RecordsetObjectToResourceData(recordset: PowerDns.RecordSet, data: RecordsetModel)
    returns (d: RecordsetModel, diags: seq<Diagnostic>)
    ensures d == ResourceDataOf(recordset, data) && diags == []
    ensures d.id == Known(StateId(ValueString(data.zoneId), ValueString(data.name), ValueString(data.rtype)))
    ensures d.name == Known(recordset.name) && d.rtype == Known(recordset.rtype) && d.ttl == Known(recordset.ttl)
    ensures d.zoneId == data.zoneId && d.serverId == data.serverId
    ensures d.records.Known? && |d.records.value| == |recordset.records|
    ensures forall i :: 0 <= i < |recordset.records| ==> d.records.value[i] == Known(recordset.records[i])
  {
    var records := new Attr<string>[|recordset.records|];
    var i := 0;
    while i < |recordset.records|
      invariant 0 <= i <= |recordset.records|
      invariant forall k :: 0 <= k < i ==> records[k] == Known(recordset.records[k])
    {
      records[i] := Known(recordset.records[i]);
      i := i + 1;
    }
    assert records[..] == StringList(recordset.records).value;
    d := data.(id := Known(StateId(ValueString(data.zoneId), ValueString(data.name), ValueString(data.rtype))));
    d := d.(name := Known(recordset.name));
    d := d.(rtype := Known(recordset.rtype));
    d := d.(ttl := Known(recordset.ttl));
    d := d.(records := Known(records[..]));
    diags := [];
  }

  /** Model -> record set -> model keeps name, type, TTL and records when they are all known,
      and sets the state ID; a null records list comes back as the known empty list. */
  lemma ModelRoundTrip(data: RecordsetModel)
    requires data.name.Known? && data.rtype.Known? && data.ttl.Known?
    requires ElementsAsStrings(data.records).Success?
    ensures var rs := RecordsetResourceModelToObject(data, PowerDns.ZeroRecordSet).0;
            ResourceDataOf(rs, data) ==
              data.(id := Known(StateId(ValueString(data.zoneId), data.name.value, data.rtype.value)),
                    records := Known(data.records.ValueOr([])))
  {
    var rs := RecordsetResourceModelToObject(data, PowerDns.ZeroRecordSet).0;
    assert StringList(rs.records).value == data.records.ValueOr([]);
  }

  /** Record set -> model -> record set is the identity, whatever the record set written into. */
  lemma ObjectRoundTrip(recordset: PowerDns.RecordSet, data: RecordsetModel, target: PowerDns.RecordSet)
    ensures RecordsetResourceModelToObject(ResourceDataOf(recordset, data), target) == (recordset, [])
  {
    ElementsAsStringList(recordset.records);
  }

  // ---------------------------------------------------------------------------------------------
  // Handlers. `got` and `data` are what `req.Config/State/Plan.Get` delivered.

  /** `Create`. */
  method Create(api: PowerDns.RecordSetsApi, got: seq<Diagnostic>, data: RecordsetModel,
                resp: Response<RecordsetModel>)
    modifies resp
    ensures var ds0 := AppendUnique(old(resp.diagnostics), got);
            var conv := RecordsetResourceModelToObject(data, PowerDns.ZeroRecordSet);
            var ds1 := AppendUnique(ds0, conv.1);
            var reply := api.createRecordSet(ValueString(data.serverId), ValueString(data.zoneId), conv.0);
            if HasError(ds0) then resp.diagnostics == ds0 && resp.state == old(resp.state)
            else if HasError(ds1) then resp.diagnostics == ds1 && resp.state == old(resp.state)
            else if reply.Failure? then
              resp.diagnostics == AppendUnique(ds1, [Error("API Error", "Unable to create record set '" +
                                                    ValueString(data.name) + "': " + reply.error.message)]) &&
              resp.state == old(resp.state)
            else resp.diagnostics == ds1 && resp.state == Some(ResourceDataOf(reply.value, data))
  {
    resp.Append(got);
    if HasError(resp.diagnostics) {
      return;
    }
    var conv := RecordsetResourceModelToObject(data, PowerDns.ZeroRecordSet);
    var recordset, diags := conv.0, conv.1;
    resp.Append(diags);
    if HasError(resp.diagnostics) {
      return;
    }
    var zoneId, serverId, recordSetName := ValueString(data.zoneId), ValueString(data.serverId), ValueString(data.name);
    var reply := api.createRecordSet(serverId, zoneId, recordset);
    if reply.Failure? {
      resp.AddError("API Error", "Unable to create record set '" + recordSetName + "': " + reply.error.message);
      return;
    }
    var d, more := RecordsetObjectToResourceData(reply.value, data);
    resp.Append(more);
    resp.SetState(d);
  }

  /** `Read`. */
  method Read(api: PowerDns.RecordSetsApi, got: seq<Diagnostic>, data: RecordsetModel,
              resp: Response<RecordsetModel>)
    modifies resp
    ensures var ds0 := AppendUnique(old(resp.diagnostics), got);
            var name, rtype := ValueString(data.name), ValueString(data.rtype);
            var reply := api.getRecordSet(ValueString(data.serverId), ValueString(data.zoneId), name, rtype);
            if HasError(ds0) then resp.diagnostics == ds0 && resp.state == old(resp.state)
            else if reply.Failure? then
              resp.diagnostics == AppendUnique(ds0, [Error("API Error", "Unable to get record set '" + name +
                                                    "' (type '" + rtype + "'): " + reply.error.message)]) &&
              resp.state == old(resp.state)
            else resp.diagnostics == ds0 && resp.state == Some(ResourceDataOf(reply.value, data))
  {
    resp.Append(got);
    if HasError(resp.diagnostics) {
      return;
    }
    var zoneId, serverId := ValueString(data.zoneId), ValueString(data.serverId);
    var recordSetName, recordSetType := ValueString(data.name), ValueString(data.rtype);
    var reply := api.getRecordSet(serverId, zoneId, recordSetName, recordSetType);
    if reply.Failure? {
      resp.AddError("API Error", "Unable to get record set '" + recordSetName + "' (type '" + recordSetType +
                                 "'): " + reply.error.message);
      return;
    }
    var d, more := RecordsetObjectToResourceData(reply.value, data);
    resp.Append(more);
    resp.SetState(d);
  }

  /** `Update`, with the conversion's diagnostics reported as `Create` does (see the findings):
      a plan whose records cannot be converted never reaches the client. The state is set only
      when both the update and the re-read succeed, and it holds what the re-read returned. */
  method Update(api: PowerDns.RecordSetsApi, got: seq<Diagnostic>, data: RecordsetModel,
                resp: Response<RecordsetModel>)
    modifies resp
    ensures ElementsAsStrings(data.records).Failure? ==> HasError(resp.diagnostics) && resp.state == old(resp.state)
    ensures var ds0 := AppendUnique(old(resp.diagnostics), got);
            var conv := RecordsetResourceModelToObject(data, PowerDns.ZeroRecordSet);
            var ds1 := AppendUnique(ds0, conv.1);
            var serverId, zoneId := ValueString(data.serverId), ValueString(data.zoneId);
            var name, rtype := ValueString(data.name), ValueString(data.rtype);
            var updated := api.updateRecordSet(serverId, zoneId, conv.0);
            var reply := api.getRecordSet(serverId, zoneId, name, rtype);
            if HasError(ds0) then resp.diagnostics == ds0 && resp.state == old(resp.state)
            else if HasError(ds1) then resp.diagnostics == ds1 && resp.state == old(resp.state)
            else if updated.Fail? then
              resp.diagnostics == AppendUnique(ds1, [Error("API Error", "Unable to update record set '" +
                                                    conv.0.name + "': " + updated.error.message)]) &&
              resp.state == old(resp.state)
            else if reply.Failure? then
              resp.diagnostics == AppendUnique(ds1, [Error("API Error", "Unable to get record set '" + name +
                                                    "': " + reply.error.message)]) &&
              resp.state == old(resp.state)
            else resp.diagnostics == ds1 && resp.state == Some(ResourceDataOf(reply.value, data))
  {
    resp.Append(got);
    if HasError(resp.diagnostics) {
      return;
    }
    var conv := RecordsetResourceModelToObject(data, PowerDns.ZeroRecordSet);
    var recordset, diags := conv.0, conv.1;
    AppendUniqueHasError(resp.diagnostics, diags);
    resp.Append(diags);
    if HasError(resp.diagnostics) {
      return;
    }
    var zoneId, serverId := ValueString(data.zoneId), ValueString(data.serverId);
    var recordSetName, recordSetType := ValueString(data.name), ValueString(data.rtype);
    var updated := api.updateRecordSet(serverId, zoneId, recordset);
    if updated.Fail? {
      resp.AddError("API Error", "Unable to update record set '" + recordset.name + "': " + updated.error.message);
      return;
    }
    var reply := api.getRecordSet(serverId, zoneId, recordSetName, recordSetType);
    if reply.Failure? {
      resp.AddError("API Error", "Unable to get record set '" + recordSetName + "': " + reply.error.message);
      return;
    }
    var d, more := RecordsetObjectToResourceData(reply.value, data);
    resp.Append(more);
    resp.SetState(d);
  }

  /** `Delete`, with the conversion's diagnostics reported (see the findings). The resource leaves
      the state only after the client reports no error. */
  method Delete(api: PowerDns.RecordSetsApi, got: seq<Diagnostic>, data: RecordsetModel,
                resp: Response<RecordsetModel>)
    modifies resp
    ensures ElementsAsStrings(data.records).Failure? ==> HasError(resp.diagnostics) && resp.state == old(resp.state)
    ensures var ds0 := AppendUnique(old(resp.diagnostics), got);
            var conv := RecordsetResourceModelToObject(data, PowerDns.ZeroRecordSet);
            var ds1 := AppendUnique(ds0, conv.1);
            var deleted := api.deleteRecordSet(ValueString(data.serverId), ValueString(data.zoneId), conv.0);
            if HasError(ds0) then resp.diagnostics == ds0 && resp.state == old(resp.state)
            else if HasError(ds1) then resp.diagnostics == ds1 && resp.state == old(resp.state)
            else if deleted.Fail? then
              resp.diagnostics == AppendUnique(ds1, [Error("API Error", "Unable to delete record set '" +
                                                    conv.0.name + "': " + deleted.error.message)]) &&
              resp.state == old(resp.state)
            else resp.diagnostics == ds1 && resp.state == None
  {
    resp.Append(got);
    if HasError(resp.diagnostics) {
      return;
    }
    var conv := RecordsetResourceModelToObject(data, PowerDns.ZeroRecordSet);
    var recordset, diags := conv.0, conv.1;
    AppendUniqueHasError(resp.diagnostics, diags);
    resp.Append(diags);
    if HasError(resp.diagnostics) {
      return;
    }
    var zoneId, serverId := ValueString(data.zoneId), ValueString(data.serverId);
    var deleted := api.deleteRecordSet(serverId, zoneId, recordset);
    if deleted.Fail? {
      resp.AddError("API Error", "Unable to delete record set '" + recordset.name + "': " + deleted.error.message);
      return;
    }
    resp.RemoveResource();
  }

  /** `ImportState`: the ID must split on '/' into exactly four parts, which become server_id,
      zone_id, name and type; otherwise one error and no attribute is set. */
  method ImportState(id: string, resp: Response<RecordsetModel>)
    modifies resp
    ensures var parts := Split(id, '/');
            if |parts| != 4 then
              resp.diagnostics == AppendUnique(old(resp.diagnostics), [Error("Resource Import ID invalid",
                "ID '" + id + "' should be in format 'server_id/zone_id/recordset_name/recordset_type'")]) &&
              resp.state == old(resp.state)
            else
              resp.diagnostics == old(resp.diagnostics) &&
              resp.state == Some(old(resp.state).GetOr(NullModel).(serverId := Known(parts[0]),
                                   zoneId := Known(parts[1]), name := Known(parts[2]), rtype := Known(parts[3])))
  {
    var splittedId := Split(id, '/');
    if |splittedId| != 4 {
      resp.AddError("Resource Import ID invalid",
                    "ID '" + id + "' should be in format 'server_id/zone_id/recordset_name/recordset_type'");
      return;
    }
    var serverId, zoneId, recordsetName, recordsetType := splittedId[0], splittedId[1], splittedId[2], splittedId[3];
    var base := resp.state.GetOr(NullModel);
    resp.state := Some(base.(serverId := Known(serverId)));
    resp.state := Some(resp.state.value.(zoneId := Known(zoneId)));
    resp.state := Some(resp.state.value.(name := Known(recordsetName)));
    resp.state := Some(resp.state.value.(rtype := Known(recordsetType)));
  }

  /** An import ID is accepted exactly when it holds three slashes. */
  lemma ImportIdAccepted(id: string)
    ensures |Split(id, '/')| == 4 <==> CountChar(id, '/') == 3
  {
  }

  /** The test's import ID, written with the separators as single characters. */
  lemma ImportIdOfTestForm(recordsetName: string)
    ensures "localhost/example.net./" + recordsetName + "/A" ==
            "localhost" + ['/'] + "example.net." + ['/'] + recordsetName + ['/'] + "A"
  {
    assert "localhost/example.net./" == "localhost" + ['/'] + "example.net." + ['/'];
  }

  /** The import ID of the acceptance test, `localhost/example.net./<name>/A`, yields those parts. */
  lemma ImportIdOfTest(recordsetName: string)
    requires '/' !in recordsetName
    ensures Split("localhost/example.net./" + recordsetName + "/A", '/') ==
            ["localhost", "example.net.", recordsetName, "A"]
  {
    var serverId, zoneId, recordsetType := "localhost", "example.net.", "A";
    assert '/' !in serverId && '/' !in zoneId && '/' !in recordsetType;
    ImportIdOfTestForm(recordsetName);
    var id := "localhost/example.net./" + recordsetName + "/A";
    assert id == serverId + ['/'] + zoneId + ['/'] + recordsetName + ['/'] + recordsetType;
    SplitJoined4(serverId, zoneId, recordsetName, recordsetType, '/');
    assert Split(id, '/') == [serverId, zoneId, recordsetName, recordsetType];
  }

  // ---------------------------------------------------------------------------------------------
  // As written, Update and Delete drop the conversion's diagnostics

  /** The record set that `Update` and `Delete` hand to the client as written: the conversion's
      result is discarded and the request's diagnostics are appended a second time instead, so a
      failed conversion leaves Go's zero record set in place. */
  function RecordSetSentAsWritten(data: RecordsetModel): PowerDns.RecordSet
  {
    RecordsetResourceModelToObject(data, PowerDns.ZeroRecordSet).0
  }

  /** Appending the request's diagnostics again adds nothing, so the second error check as
      written can never stop a failed conversion. */
  lemma SecondAppendIsNoOp(ds: seq<Diagnostic>, got: seq<Diagnostic>)
    ensures AppendUnique(AppendUnique(ds, got), got) == AppendUnique(ds, got)
  {
    AppendUniqueAbsorbs(AppendUnique(ds, got), got);
  }

  /** As written, a plan whose records cannot be converted sends the zero record set: name "",
      type "", TTL 0, no records. */
  lemma DroppedConversionSendsZeroRecordSet(data: RecordsetModel)
    requires ElementsAsStrings(data.records).Failure?
    ensures RecordSetSentAsWritten(data) == PowerDns.ZeroRecordSet
  {
  }

  /** For instance a plan for `www.example.net.` whose records list holds a null element. */
  lemma DroppedConversionExample()
    ensures var data := NullModel.(name := Known("www.example.net."), rtype := Known("A"), ttl := Known(300),
                                   records := Known([Null]));
            RecordSetSentAsWritten(data).name == "" &&
            RecordsetResourceModelToObject(data, PowerDns.ZeroRecordSet).1 != []
  {
    var data := NullModel.(name := Known("www.example.net."), rtype := Known("A"), ttl := Known(300),
                           records := Known([Null]));
    assert !data.records.value[0].Known?;
  }
}
