/** `Factory`: the fluent builder that configures where the ChromaDB server is and which database
    and tenant to use, then creates the API client. Its configuration fields are overwritten in
    place by the setters, by `createApiClient` and by `connect`. */
module Factory {
  import opened Wrappers
  import opened Strings
  import opened ChromaApiClient

  const DefaultHost: string := "http://localhost"
  const DefaultPort: int := 8000
  const DefaultDatabase: string := "default_database"
  const DefaultTenant: string := "default_tenant"

  /** The headers of the Guzzle client built when none was supplied. */
  const JsonHeaders: map<string, string> :=
    map["Content-Type" := "application/json", "Accept" := "application/json"]

  /** `$this->host . ':' . $this->port`. */
  function BaseUrl(host: string, port: int): (r: string)
    ensures |r| > |host| + 1 && r[..|host|] == host && r[|host|] == ':'
  {
    host + ":" + IntToString(port)
  }

  /** The base URL splits back into the host and the port it was built from. */
  lemma BaseUrlRoundTrip(host: string, port: int)
    ensures var r := BaseUrl(host, port);
      r[..|host|] == host && r[|host|] == ':' && ParseInt(r[|host| + 1..]) == Some(port)
  {
    assert BaseUrl(host, port)[|host| + 1..] == IntToString(port);
    IntToStringRoundTrip(port);
  }

  /** With no setter called, the client talks to `http://localhost:8000`. */
  lemma DefaultBaseUrl()
    ensures BaseUrl(DefaultHost, DefaultPort) == "http://localhost:8000"
  {
    assert Digits(8) == "8" && Digits(80) == "80" && Digits(800) == "800";
    assert IntToString(8000) == "8000";
  }

  /** What `connect` hands to `new Client(...)`; the Client itself is not part of this model. */
  datatype Connection = Connection(apiClient: ChromaApiClient, database: string, tenant: string)

  class Factory {
    /** Unset (None) until `createApiClient` runs. */
    var baseUrl: Option<string>
    var host: string
    var port: int
    var database: string
    var tenant: string
    /** Unset until `withHttpClient` or `createApiClient`. */
    var httpClient: Option<HttpClient>
    /** Unset until `connect`. */
    var apiClient: Option<ChromaApiClient>

    constructor ()
      ensures host == DefaultHost && port == DefaultPort
      ensures database == DefaultDatabase && tenant == DefaultTenant
      ensures baseUrl.None? && httpClient.None? && apiClient.None?
    {
      baseUrl := None;
      host := DefaultHost;
      port := DefaultPort;
      database := DefaultDatabase;
      tenant := DefaultTenant;
      httpClient := None;
      apiClient := None;
    }

    method WithHost(host: string) returns (self: Factory)
      modifies this
      ensures self == this && this.host == host
      ensures port == old(port) && database == old(database) && tenant == old(tenant)
      ensures baseUrl == old(baseUrl) && httpClient == old(httpClient) && apiClient == old(apiClient)
    {
      this.host := host;
      self := this;
    }

    method WithPort(port: int) returns (self: Factory)
      modifies this
      ensures self == this && this.port == port
      ensures host == old(host) && database == old(database) && tenant == old(tenant)
      ensures baseUrl == old(baseUrl) && httpClient == old(httpClient) && apiClient == old(apiClient)
    {
      this.port := port;
      self := this;
    }

    method WithDatabase(database: string) returns (self: Factory)
      modifies this
      ensures self == this && this.database == database
      ensures host == old(host) && port == old(port) && tenant == old(tenant)
      ensures baseUrl == old(baseUrl) && httpClient == old(httpClient) && apiClient == old(apiClient)
    {
      this.database := database;
      self := this;
    }

    method WithTenant(tenant: string) returns (self: Factory)
      modifies this
      ensures self == this && this.tenant == tenant
      ensures host == old(host) && port == old(port) && database == old(database)
      ensures baseUrl == old(baseUrl) && httpClient == old(httpClient) && apiClient == old(apiClient)
    {
      this.tenant := tenant;
      self := this;
    }

    method WithHttpClient(httpClient: HttpClient) returns (self: Factory)
      modifies this
      ensures self == this && this.httpClient == Some(httpClient)
      ensures host == old(host) && port == old(port) && database == old(database) && tenant == old(tenant)
      ensures baseUrl == old(baseUrl) && apiClient == old(apiClient)
    {
      this.httpClient := Some(httpClient);
      self := this;
    }

    /** Records the base URL, builds a JSON Guzzle client on it only when none is set (`??=`),
        and wraps the HTTP client in a new API client. */
    method CreateApiClient() returns (client: ChromaApiClient)
      modifies this
      ensures baseUrl == Some(BaseUrl(host, port))
      ensures old(httpClient).Some? ==> httpClient == old(httpClient)
      ensures old(httpClient).None? ==>
        httpClient.Some? && fresh(httpClient.value)
        && httpClient.value.baseUri == BaseUrl(host, port) && httpClient.value.headers == JsonHeaders
      ensures fresh(client) && httpClient.Some? && client.httpClient == httpClient.value && client.sent == []
      ensures host == old(host) && port == old(port) && database == old(database) && tenant == old(tenant)
      ensures apiClient == old(apiClient)
    {
      baseUrl := Some(BaseUrl(host, port));
      if httpClient.None? {
        var http := new HttpClient(baseUrl.value, JsonHeaders);
        httpClient := Some(http);
      }
      client := new ChromaApiClient(httpClient.value);
    }

    /** Creates and stores the API client and connects it to the configured database and tenant. */
    method Connect() returns (c: Connection)
      modifies this
      ensures apiClient == Some(c.apiClient) && fresh(c.apiClient) && c.apiClient.sent == []
      ensures c.database == database && c.tenant == tenant
      ensures baseUrl == Some(BaseUrl(host, port))
      ensures old(httpClient).Some? ==> httpClient == old(httpClient)
      ensures old(httpClient).None? ==>
        httpClient.Some? && fresh(httpClient.value)
        && httpClient.value.baseUri == BaseUrl(host, port) && httpClient.value.headers == JsonHeaders
      ensures httpClient.Some? && c.apiClient.httpClient == httpClient.value
      ensures host == old(host) && port == old(port) && database == old(database) && tenant == old(tenant)
    {
      var client := CreateApiClient();
      apiClient := Some(client);
      c := Connection(client, database, tenant);
    }
  }

  /** A factory configured as `withHost('http://chroma')->withPort(9000)` builds its client on
      `http://chroma:9000` and still uses the default database and tenant. */
  method ConfiguredConnection() returns (c: Connection)
    ensures c.apiClient.httpClient.baseUri == "http://chroma:9000"
    ensures c.database == DefaultDatabase && c.tenant == DefaultTenant
  {
    var f := new Factory();
    f := f.WithHost("http://chroma");
    f := f.WithPort(9000);
    c := f.Connect();
    assert Digits(9) == "9" && Digits(90) == "90" && Digits(900) == "900";
    assert IntToString(9000) == "9000";
  }
}
