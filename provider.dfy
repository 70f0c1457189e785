/** The provider: resolving the API key and server URL into one client, and the registration of
    resources and data sources. */
module Provider {
  import opened Wrappers
  import opened Framework

  /** `PowerdnsProviderModel`. */
  datatype ProviderModel = ProviderModel(apiKey: Attr<string>, serverUrl: Attr<string>)

  /** The parts of a parsed `url.URL` the provider uses. */
  datatype Url = Url(scheme: string, host: string, path: string)

  /** The arguments `powerdns.New` builds the client from; the HTTP transport itself is not modelled. */
  datatype Client = Client(apiKey: string, serverHost: string, basePath: string, scheme: string)

  const ApiKeyVariable := "POWERDNS_API_KEY"
  const ServerUrlVariable := "POWERDNS_SERVER_URL"

  /** `os.Getenv`: "" for an unset variable. */
  function Getenv(env: map<string, string>, variable: string): string
  {
    if variable in env then env[variable] else ""
  }

  /** A setting that is not unknown: the environment variable when the setting is null,
      otherwise the configured value. */
  function FromConfigOrEnv(a: Attr<string>, env: map<string, string>, variable: string): string
    requires !a.Unknown?
  {
    if a.Null? then Getenv(env, variable) else a.value
  }

  /** An explicit setting wins over the environment, even when it is the empty string. */
  lemma ExplicitSettingWins(v: string, env: map<string, string>, variable: string)
    ensures FromConfigOrEnv(Known(v), env, variable) == v
  {
  }

  /** `provider.ConfigureResponse`. */
  class ConfigureResponse {
    var diagnostics: seq<Diagnostic>
    var dataSourceData: Option<Client>
    var resourceData: Option<Client>

    constructor ()
      ensures diagnostics == [] && dataSourceData == None && resourceData == None
    {
      diagnostics, dataSourceData, resourceData := [], None, None;
    }
  }

  /** `Configure`. `got` and `data` are what `req.Config.Get` delivered, `env` the process
      environment and `parse` stands for `url.Parse` (its error as text). Each early return
      leaves both client slots as they were. */
  method Configure(got: seq<Diagnostic>, data: ProviderModel, env: map<string, string>,
                   parse: string -> Result<Url, string>, resp: ConfigureResponse)
    modifies resp
    ensures var ds0 := AppendUnique(old(resp.diagnostics), got);
            var kept := resp.dataSourceData == old(resp.dataSourceData) &&
                             resp.resourceData == old(resp.resourceData);
            if HasError(ds0) then resp.diagnostics == ds0 && kept
            else if data.apiKey.Unknown? then
              resp.diagnostics == AppendUnique(ds0, [Warning("API Key is not set",
                                 "API Key is not set. This is required for authentication.")]) && kept
            else
              var apiKey := FromConfigOrEnv(data.apiKey, env, ApiKeyVariable);
              if apiKey == "" then
                resp.diagnostics == AppendUnique(ds0, [Error("API Key is not set",
                                   "API Key is not set. This is required for authentication.")]) && kept
              else if data.serverUrl.Unknown? then
                resp.diagnostics == AppendUnique(ds0, [Warning("Server URL is not set",
                                   "Server URL is not set. Can't connect to PowerDNS API.")]) && kept
              else
                var parsed := parse(FromConfigOrEnv(data.serverUrl, env, ServerUrlVariable));
                if parsed.Failure? then
                  resp.diagnostics == AppendUnique(ds0, [Error("Invalid Server URL",
                                     "Invalid server URL: " + parsed.error)]) && kept
                else
                  resp.diagnostics == ds0 &&
                  resp.dataSourceData == Some(Client(apiKey, parsed.value.host, parsed.value.path, parsed.value.scheme)) &&
                  resp.resourceData == resp.dataSourceData
  {
    resp.diagnostics := AppendUnique(resp.diagnostics, got);
    if HasError(resp.diagnostics) {
      return;
    }
    var apiKey: string;
    if data.apiKey.Unknown? {
      resp.diagnostics := AppendUnique(resp.diagnostics, [Warning("API Key is not set",
                            "API Key is not set. This is required for authentication.")]);
      return;
    }
    if data.apiKey.Null? {
      apiKey := Getenv(env, ApiKeyVariable);
    } else {
      apiKey := data.apiKey.value;
    }
    if apiKey == "" {
      resp.diagnostics := AppendUnique(resp.diagnostics, [Error("API Key is not set",
                            "API Key is not set. This is required for authentication.")]);
      return;
    }
    var serverUrl: string;
    if data.serverUrl.Unknown? {
      resp.diagnostics := AppendUnique(resp.diagnostics, [Warning("Server URL is not set",
                            "Server URL is not set. Can't connect to PowerDNS API.")]);
      return;
    }
    if data.serverUrl.Null? {
      serverUrl := Getenv(env, ServerUrlVariable);
    } else {
      serverUrl := data.serverUrl.value;
    }
    var parsed := parse(serverUrl);
    if parsed.Failure? {
      resp.diagnostics := AppendUnique(resp.diagnostics, [Error("Invalid Server URL",
                            "Invalid server URL: " + parsed.error)]);
      return;
    }
    var client := Client(apiKey, parsed.value.host, parsed.value.path, parsed.value.scheme);
    resp.dataSourceData := Some(client);
    resp.resourceData := Some(client);
  }

  // ---------------------------------------------------------------------------------------------
  // Registration

  datatype ResourceType = RecordsetResourceType | ZoneResourceType
  datatype DataSourceType = RecordsetDataSourceType | ZoneDataSourceType

  /** The provider's `Metadata` type name. */
  const ProviderTypeName := "powerdns"

  /** The `Metadata` type name of each resource and data source. */
  function ResourceTypeName(t: ResourceType): string
  {
    match t
    case RecordsetResourceType => ProviderTypeName + "_recordset"
    case ZoneResourceType => ProviderTypeName + "_zone"
  }

  function DataSourceTypeName(t: DataSourceType): string
  {
    match t
    case RecordsetDataSourceType => ProviderTypeName + "_recordset"
    case ZoneDataSourceType => ProviderTypeName + "_zone"
  }

  /** `Resources`: every resource type, each exactly once. */
  function Resources(): (r: seq<ResourceType>)
    ensures |r| == 2 && RecordsetResourceType in r && ZoneResourceType in r
  {
    [RecordsetResourceType, ZoneResourceType]
  }

  /** `DataSources`: every data source type, each exactly once. */
  function DataSources(): (r: seq<DataSourceType>)
    ensures |r| == 2 && RecordsetDataSourceType in r && ZoneDataSourceType in r
  {
    [RecordsetDataSourceType, ZoneDataSourceType]
  }

  /** The registered resources have pairwise distinct type names, and so do the data sources;
      each data source shares its type name with the resource of the same entity. */
  lemma RegisteredTypeNamesDistinct()
    ensures forall i, j :: 0 <= i < j < |Resources()| ==>
              ResourceTypeName(Resources()[i]) != ResourceTypeName(Resources()[j])
    ensures forall i, j :: 0 <= i < j < |DataSources()| ==>
              DataSourceTypeName(DataSources()[i]) != DataSourceTypeName(DataSources()[j])
    ensures ResourceTypeName(RecordsetResourceType) == DataSourceTypeName(RecordsetDataSourceType) == "powerdns_recordset"
    ensures ResourceTypeName(ZoneResourceType) == DataSourceTypeName(ZoneDataSourceType) == "powerdns_zone"
  {
    assert ResourceTypeName(RecordsetResourceType)[9] == 'r';
    assert ResourceTypeName(ZoneResourceType)[9] == 'z';
  }
}
