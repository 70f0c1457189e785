# PowerDNS Terraform provider: a Dafny model of its logic

The provider binds Terraform resources and data sources to the PowerDNS Authoritative HTTP API.
This project models the provider's own logic and proves properties of it:

- the client layer (`internal/powerdns/api.go`): the domain `Zone`/`RecordSet` structs, the wire
  DTOs whose fields are pointers (modelled as `Option`), the two transforms between them, and
  the zone operations with their local checks;
- the `powerdns_recordset` and `powerdns_zone` resources: conversions between the Terraform
  models and the domain structs, the state ID, the import-ID parsing, and the
  create/read/update/delete handlers with their diagnostics and state;
- the `powerdns_recordset` data source;
- the provider's `Configure` (API key and server URL from configuration or environment) and its
  registration lists.

Modules follow the source files: `PowerDns` (api.go), `RecordsetResource`, `ZoneResource`,
`RecordsetDataSource`, `Provider`. Three supporting modules stand for what the code uses from
outside: `Wrappers` (Option/Result/Outcome), `GoTypes` (`int64` and `strings.Split`) and
`Framework`, the plugin framework reduced to diagnostics, attribute values that may be unknown or
null, list conversion and a `Response` class holding diagnostics and state.

Modelling choices:

- The HTTP API is an oracle. `PowerDns.ZonesApi` holds the generated zone endpoints as functions
  from request parameters to replies. `PowerDns.RecordSetsApi` holds `GetRecordSet`,
  `CreateRecordSet`, `UpdateRecordSet` and `DeleteRecordSet`. The resources call these, but they
  are defined in files that are not part of this model.
- `transformZoneToAPI` and `transformAPIToZone` are methods with nested loops over preallocated
  arrays. Each is proved equal to a specification function (`ZoneToWire`, `WireToZone`). The
  client operations and the lemmas use those functions.
- Handlers are methods that change a `Framework.Response`. Their inputs are the
  `(diagnostics, model)` pair that `req.Config/Plan/State.Get` delivers, the oracle, and, for
  `Configure`, the environment as a map and `url.Parse` as a function.
- The framework's `Diagnostics.Append` (and so `AddError`/`AddWarning`) skips a diagnostic that is
  already present. The model follows this in `Framework.AppendUnique`.
- `List.ElementsAs` into `[]string` turns a null list into the nil slice with no diagnostic,
  because a slice can hold nil. A known list whose elements are all known gives those strings in
  order. An unknown list, or an unknown or null element, yields one error diagnostic. Its exact
  text is the framework's and is abstracted here.
- Go structs written through a pointer (`*data`, `*recordset`, `*zone`) are modelled as values
  passed in and returned. Nothing else holds those pointers, so this loses no aliasing.
- The handlers model the corrected code for the three findings below. Each finding also has a
  member that models the code as written.

## Model

| member | source | states |
|---|---|---|
| `GoTypes.Split` | internal/provider/recordset_resource.go:308 | `strings.Split` gives one part more than there are separators, and no part contains the separator |
| `PowerDns.TransformZoneToApi` | internal/powerdns/api.go:93-119 | one RRSet per record set and one Record per content string, in order, each wrapping that element's own value; name, kind, DNSSEC, serial and masters copied; the wire ID is never set |
| `PowerDns.TransformApiToZone` | internal/powerdns/api.go:121-145 | given a payload whose dereferenced pointers are all set: ID, name, kind, DNSSEC, serial and masters copied; each RRSet flattened into a record set with the same number of records, in the same order |
| `PowerDns.ZoneRoundTrip` | internal/powerdns/api.go:93-145 | transforming a zone to the wire and back yields the zone with its ID cleared; the wire form always has every pointer set |
| `PowerDns.WireRoundTrip` | internal/powerdns/api.go:93-145 | a complete wire zone transformed to a zone and back is unchanged except for the cleared ID |
| `PowerDns.SharedSlotBreaksRoundTrip` | internal/powerdns/api.go:95-108 | when a range variable is one slot per loop, any record set holding two distinct contents does not survive the round trip |
| `PowerDns.SharedSlotExample` | internal/powerdns/api.go:97-101 | with shared slots, an A record set with two addresses comes back as the second address twice; with per-element capture it comes back intact |
| `PowerDns.CreateZone` | internal/powerdns/api.go:46-64 | an empty name fails with "zone name is required"; otherwise an empty kind fails with "zone kind is required"; both happen whatever the server would answer; otherwise a server error is returned unchanged, and a reply becomes a zone with the server's ID whose wire form is the reply |
| `PowerDns.CreateZoneExample` | internal/powerdns/api.go:46-64 | creating `example.com.` (Native) against a server that answers with that zone and no RRSets gives ID `example.com.` and no record sets |
| `PowerDns.GetZone` | internal/powerdns/api.go:75-84 | a server error is returned unchanged; a reply becomes a zone with the server's ID whose wire form is the reply |
| `PowerDns.UpdateZone` | internal/powerdns/api.go:66-73 | the outcome is the server's answer to a PUT addressed by server and zone ID; the body is the complete wire form of the zone, from which the zone comes back whole except for its ID, which travels only in the path |
| `PowerDns.UpdateZoneSkipsLocalChecks` | internal/powerdns/api.go:66-73 | `UpdateZone` does no local checks: a zone without name or kind is still PUT as the zero wire zone, where `CreateZone` would fail locally |
| `PowerDns.DeleteZone` | internal/powerdns/api.go:86-91 | the outcome is the server's answer to the delete, with no local checks |
| `RecordsetResource.StateIdSplits` | internal/provider/recordset_resource.go:350 | a state ID `zone_id/name/type` built from slash-free parts splits back into those three parts |
| `RecordsetResource.RecordsetResourceModelToObject` | internal/provider/recordset_resource.go:328-341 | an error is reported exactly when the records cannot be converted (an unknown list or an unknown or null element), and then no field is written; otherwise name, type and TTL are copied, a null list gives no records, and a known list gives its records in the same length and order |
| `RecordsetResource.RecordsetObjectToResourceData` | internal/provider/recordset_resource.go:343-357 | the ID is built from the model's zone ID, name and type as they were before the overwrite; name, type and TTL are overwritten from the record set; records have the same length and order; zone and server IDs are unchanged; no diagnostics |
| `RecordsetResource.ModelRoundTrip` | internal/provider/recordset_resource.go:328-357 | model to record set to model keeps known name, type, TTL and records and only sets the ID; a null records list comes back as the known empty list |
| `RecordsetResource.ObjectRoundTrip` | internal/provider/recordset_resource.go:328-357 | record set to model to record set gives back the record set, with no diagnostics |
| `RecordsetResource.Create` | internal/provider/recordset_resource.go:102-156 | request or conversion errors stop before the client is called; a client error adds one "API Error" naming the record set and sets no state; otherwise the state is the model filled from the created record set |
| `RecordsetResource.Read` | internal/provider/recordset_resource.go:158-197 | a client error adds one "API Error" naming the record set and its type and sets no state; otherwise the state is the model filled from the returned record set |
| `RecordsetResource.Update` | internal/provider/recordset_resource.go:199-265 | records that cannot be converted stop the update before any call (corrected, see Findings); the state is set only if both the update and the re-read succeed, and holds the re-read record set |
| `RecordsetResource.Delete` | internal/provider/recordset_resource.go:267-305 | records that cannot be converted stop the delete (corrected, see Findings); the resource is removed from the state only after `DeleteRecordSet` reports no error |
| `RecordsetResource.ImportState` | internal/provider/recordset_resource.go:307-326 | an ID that does not split into exactly four parts adds one error and sets nothing; otherwise server_id, zone_id, name and type become parts 0 to 3 |
| `RecordsetResource.ImportIdAccepted` | internal/provider/recordset_resource.go:308-310 | an import ID is accepted exactly when it contains three slashes |
| `RecordsetResource.ImportIdOfTest` | internal/provider/recordset_resource_test.go:33-39 | the test's import ID `localhost/example.net./<name>/A` splits into those four parts |
| `RecordsetResource.SecondAppendIsNoOp` | internal/provider/recordset_resource.go:210-215 | appending the request's diagnostics a second time adds nothing, so the second error check as written cannot catch a failed conversion |
| `RecordsetResource.DroppedConversionSendsZeroRecordSet` | internal/provider/recordset_resource.go:209-211 | as written, a failed conversion hands the zero record set (empty name and type, TTL 0, no records) to the client |
| `RecordsetResource.DroppedConversionExample` | internal/provider/recordset_resource.go:277-279 | a plan for `www.example.net.` whose records hold a null element: the conversion reports a diagnostic, yet as written the record set sent is named "" |
| `ZoneResource.ZoneResourceDataToObject` | internal/provider/zone_resource.go:281-285 | ID, name and kind become the model's values, with "" for unknown or null; DNSSEC, serial, masters and record sets stay as they were in the target zone |
| `ZoneResource.ZoneObjectToResourceData` | internal/provider/zone_resource.go:287-291 | ID, name and kind become known values from the zone; the server ID is left as it was |
| `ZoneResource.LookupId` | internal/provider/zone_resource.go:141-147 | a known ID is used as it is; an unknown or null ID falls back to the name, which is "" when the name is unknown or null too |
| `ZoneResource.ObjectFromModelIsZeroElsewhere` | internal/provider/zone_resource.go:281-285 | from the zero zone only ID, name and kind are set; DNSSEC, serial, masters and record sets stay zero, so Update sends no RRSets |
| `ZoneResource.ModelRoundTrip` | internal/provider/zone_resource.go:281-291 | model to zone to model keeps the server ID and every known ID, name and kind; unknown or null ones come back as known "" |
| `ZoneResource.ObjectRoundTrip` | internal/provider/zone_resource.go:281-291 | zone to model to zone brings back the zone's ID, name and kind and leaves the other fields of the target alone |
| `ZoneResource.DeleteHasNoFallback` | internal/provider/zone_resource.go:243-249 | with a null ID and a known name, Read and Update address the zone by the name, while Delete addresses "" |
| `ZoneResource.Create` | internal/provider/zone_resource.go:90-129 | a failed create adds one "API Error" naming the planned zone and sets no state (corrected, see Findings); otherwise the state is the model filled from the created zone |
| `ZoneResource.Read` | internal/provider/zone_resource.go:131-170 | the zone is addressed by its ID when that is neither unknown nor null, else by its name; an error adds one "API Error" naming that ID; otherwise ID, name and kind come from the returned zone |
| `ZoneResource.Update` | internal/provider/zone_resource.go:172-231 | the planned ID, name and kind, with every other field zero, are PUT to the zone addressed as in Read; the state is set only if both `UpdateZone` and `GetZone` succeed, and holds what `GetZone` returned |
| `ZoneResource.Delete` | internal/provider/zone_resource.go:233-259 | the zone is addressed by its ID alone; it is removed from the state only after `DeleteZone` reports no error |
| `ZoneResource.ImportState` | internal/provider/zone_resource.go:261-279 | an ID that does not split into exactly two parts adds one error and sets nothing; otherwise server_id and id become parts 0 and 1, and name and kind are not set |
| `ZoneResource.ImportIdOfTest` | internal/provider/zone_resource_test.go:31-36 | the test's import ID `localhost/<zone>` splits into those two parts, and the imported zone is then read by that zone ID |
| `ZoneResource.CreateErrorPathDereferencesNil` | internal/provider/zone_resource.go:109-115 | as written, every failing create, local or remote, formats its message through a nil zone |
| `ZoneResource.CreateWithoutNameDereferencesNil` | internal/provider/zone_resource.go:109-115 | for instance a plan with a null name fails with "zone name is required", and the message as written dereferences nil |
| `RecordsetDataSource.Read` | internal/provider/recordset_data_source.go:100-149 | a client error appends exactly one new error "Unable to get record set '<name>' (type '<type>'): ..." to the diagnostics and sets no state; otherwise the ID comes from the configured zone ID, name and type, name, type and TTL from the API, records keep their length and order, and zone and server IDs are unchanged |
| `RecordsetDataSource.StateIdIgnoresReply` | internal/provider/recordset_data_source.go:132 | the state ID does not depend on the record set the API returns |
| `Provider.Configure` | internal/provider/provider.go:60-108 | an unknown API key adds a warning and configures nothing; a null one comes from `POWERDNS_API_KEY`; an empty key adds an error before the server URL is looked at; an unknown URL adds a warning; a null one comes from `POWERDNS_SERVER_URL`; a parse failure adds "Invalid Server URL"; otherwise one client built from the key and the URL's host, path and scheme goes to both data-source and resource data |
| `Provider.ExplicitSettingWins` | internal/provider/provider.go:74-78 | an explicit setting is used as it is, even the empty string, whatever the environment holds |
| `Provider.Resources` | internal/provider/provider.go:110-115 | exactly the record-set and zone resources are registered |
| `Provider.DataSources` | internal/provider/provider.go:117-122 | exactly the record-set and zone data sources are registered |
| `Provider.RegisteredTypeNamesDistinct` | internal/provider/provider.go:110-122 | the registered resources have distinct type names, and so do the data sources (`powerdns_recordset`, `powerdns_zone`) |

## Left out

- HTTP transport, `X-API-Key` authentication and the generated client and DTO code: the API is an uninterpreted oracle, and `powerdns.New` is reduced to the values it is built from.
- Server behaviour (404 for a missing zone, name and type unique within a zone, a get after a delete failing): none of it is in this code.
- Wire DTO fields that the provider never reads or writes. Nil elements inside the `rrsets` and `records` slices are also left out: the model only has nil pointer fields.
- `PowerDns.TransformApiToZone`, `PowerDns.CreateZone`, `PowerDns.GetZone`: they require every pointer the transform dereferences to be set, because the Go code would panic otherwise. The panic itself is not modelled.
- `ZoneResource.Create`, `ZoneResource.Read`, `ZoneResource.Update`: they carry the same requirement that server replies are complete, because they call `CreateZone` and `GetZone`.
- `ZoneResource` and `RecordsetResource` handlers, and `RecordsetDataSource.Read`: `State.Set`, `State.SetAttribute` and `ListValue` are taken to report no diagnostics. Their conversion errors are not modelled.
- `State.Get` is an input: the handlers receive the diagnostics and model it delivered. Schemas, `Metadata` (apart from the type names), `tflog` logging and `context` are left out.
- The resources' and data source's own `Configure` (the type assertion of the provider data) is framework glue and is not modelled.
- `zone_data_source.go` is not part of this model. Its field copies are those of `ZoneResource.ZoneObjectToResourceData`.
- `Provider.Configure`: the `Config.Get` error path is modelled like the handlers'. `os.Getenv` and `url.Parse` are parameters.
- `New` in provider.go builds a closure around the version string and is not modelled.

## Findings

| source | as written | input that shows it | evidently intended | confidence | as-written member | corrected member |
|---|---|---|---|---|---|---|
| internal/powerdns/api.go:95-108 | `&record` and `&recordset.Name/Type/TTL` take the address of the range variables. Under per-loop variables (Go before 1.22, or a module declaring an older `go` version), every Record of a set points at that set's last content, and every RRSet at the last record set's name, type and TTL. The TODO at line 102 raises this. | a zone with one A record set holding `192.0.2.1` and `192.0.2.2` | each Record holds its own content, and each RRSet its own record set's fields | medium: depends on the toolchain and go.mod version, which are not part of this model; not executed | `PowerDns.SharedSlotBreaksRoundTrip`, `PowerDns.SharedSlotExample` | `PowerDns.TransformZoneToApi`, `PowerDns.ZoneRoundTrip` |
| internal/provider/zone_resource.go:109-115 | `zone, err := r.client.CreateZone(...)` reassigns `zone` to the nil result on error. The error message then reads `zone.Name`, which dereferences nil. | a plan with a null or empty name: `CreateZone` fails with "zone name is required" | report "Unable to create zone '<planned name>': <error>" | high, not executed | `ZoneResource.CreateErrorPathDereferencesNil`, `ZoneResource.CreateWithoutNameDereferencesNil` | `ZoneResource.Create` |
| internal/provider/recordset_resource.go:209-215 | `Update` and `Delete` discard the diagnostics of `RecordsetResourceModelToObject` and append the request's diagnostics again, which adds nothing. A failed conversion then sends the zero record set to the API (lines 277-283 in `Delete` do the same). | a plan for a record set whose records list holds a null element | stop with the conversion's diagnostics, as `Create` does at lines 113-118 | medium, not executed | `RecordsetResource.DroppedConversionSendsZeroRecordSet`, `RecordsetResource.SecondAppendIsNoOp` | `RecordsetResource.Update`, `RecordsetResource.Delete` |
