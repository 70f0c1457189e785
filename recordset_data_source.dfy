/** The `powerdns_recordset` data source: reads one record set and fills the configured model. */
module RecordsetDataSource {
  import opened Wrappers
  import opened Framework
  import PowerDns
  import RecordsetResource

  /** `RecordsetDataSourceModel` has the resource model's fields and attribute names. */
  type RecordsetDataSourceModel = RecordsetResource.RecordsetModel

  /** `Read`: on success the state ID is built from the configured zone ID, name and type, and
      name, type, TTL and records (same length and order) come from the API's record set; zone
      and server IDs stay as configured. On an API error exactly one error is appended and no
      state is set. */
  method Read(api: PowerDns.RecordSetsApi, got: seq<Diagnostic>, data: RecordsetDataSourceModel,
              resp: Response<RecordsetDataSourceModel>)
    modifies resp
    ensures var ds0 := AppendUnique(old(resp.diagnostics), got);
            var zoneId, serverId := ValueString(data.zoneId), ValueString(data.serverId);
            var name, rtype := ValueString(data.name), ValueString(data.rtype);
            var reply := api.getRecordSet(serverId, zoneId, name, rtype);
            if HasError(ds0) then resp.diagnostics == ds0 && resp.state == old(resp.state)
            else if reply.Failure? then
              var err := Error("API Error", "Unable to get record set '" + name + "' (type '" + rtype + "'): " +
                               reply.error.message);
              resp.diagnostics == AppendUnique(ds0, [err]) && resp.diagnostics == ds0 + [err] &&
              resp.state == old(resp.state)
            else
              resp.diagnostics == ds0 && resp.state.Some? &&
              var d := resp.state.value;
              d == RecordsetResource.ResourceDataOf(reply.value, data) &&
              d.id == Known(RecordsetResource.StateId(zoneId, name, rtype)) &&
              d.name == Known(reply.value.name) && d.rtype == Known(reply.value.rtype) &&
              d.ttl == Known(reply.value.ttl) && d.zoneId == data.zoneId && d.serverId == data.serverId &&
              d.records.Known? && |d.records.value| == |reply.value.records| &&
              forall i :: 0 <= i < |reply.value.records| ==> d.records.value[i] == Known(reply.value.records[i])
  {
    resp.Append(got);
    if HasError(resp.diagnostics) {
      return;
    }
    var zoneId, serverId := ValueString(data.zoneId), ValueString(data.serverId);
    var recordSetName, recordSetType := ValueString(data.name), ValueString(data.rtype);
    var reply := api.getRecordSet(serverId, zoneId, recordSetName, recordSetType);
    if reply.Failure? {
      // No error is present yet, so the new one cannot be a duplicate.
      AppendUniqueOne(resp.diagnostics, Error("API Error", "Unable to get record set '" + recordSetName +
                                              "' (type '" + recordSetType + "'): " + reply.error.message));
      resp.AddError("API Error", "Unable to get record set '" + recordSetName + "' (type '" + recordSetType +
                                 "'): " + reply.error.message);
      return;
    }
    var recordset := reply.value;
    var records := new Attr<string>[|recordset.records|];
    var i := 0;
    while i < |recordset.records|
      modifies records
      invariant 0 <= i <= |recordset.records|
      invariant forall k :: 0 <= k < i ==> records[k] == Known(recordset.records[k])
    {
      records[i] := Known(recordset.records[i]);
      i := i + 1;
    }
    assert records[..] == StringList(recordset.records).value;
    var d := data.(id := Known(RecordsetResource.StateId(zoneId, recordSetName, recordSetType)));
    d := d.(name := Known(recordset.name), rtype := Known(recordset.rtype), ttl := Known(recordset.ttl));
    d := d.(records := Known(records[..]));
    var diags: seq<Diagnostic> := [];
    resp.Append(diags);
    resp.SetState(d);
  }

  /** The state ID depends only on the configuration, never on the name and type the API returns. */
  lemma StateIdIgnoresReply(data: RecordsetDataSourceModel, a: PowerDns.RecordSet, b: PowerDns.RecordSet)
    ensures RecordsetResource.ResourceDataOf(a, data).id == RecordsetResource.ResourceDataOf(b, data).id
  {
  }
}
