/** Assembly of the Kubernetes client configuration from the bound client
    properties.

    The trust-self-signed-certificates flag is always copied onto the
    builder; master URL, username and password are copied only when they
    are present, and otherwise keep whatever the builder started with. */
module ClientConfiguration {
  import opened Optionals

  /** Client settings bound from configuration. */
  datatype ClientProperties = ClientProperties(
    openshift: bool,
    trustSelfSignedCertificates: bool,
    masterUrl: Option<string>,
    username: Option<string>,
    password: Option<string>)

  /** The fields of the client Config that the starter may set; `None` is a
      null field. As a builder, each With* step replaces one field. */
  datatype Config = Config(
    trustCerts: bool,
    masterUrl: Option<string>,
    username: Option<string>,
    password: Option<string>)
  {
    function WithTrustCerts(b: bool): Config { this.(trustCerts := b) }
    function WithMasterUrl(s: string): Config { this.(masterUrl := Some(s)) }
    function WithUsername(s: string): Config { this.(username := Some(s)) }
    function WithPassword(s: string): Config { this.(password := Some(s)) }
  }

  /** Optional.ifPresent on a builder step: applies the step to a present
      value, leaves the builder alone otherwise. */
  function IfPresent(builder: Config, v: Option<string>, step: (Config, string) -> Config): Config
  {
    match v
    case None => builder
    case Some(s) => step(builder, s)
  }

  /** The client configuration built from `client`, starting from the
      builder's initial values `defaults`. */
  function GetClientConfiguration(client: ClientProperties, defaults: Config): (r: Config)
    ensures r.trustCerts == client.trustSelfSignedCertificates
    ensures client.masterUrl.Some? ==> r.masterUrl == client.masterUrl
    ensures client.masterUrl.None? ==> r.masterUrl == defaults.masterUrl
    ensures client.username.Some? ==> r.username == client.username
    ensures client.username.None? ==> r.username == defaults.username
    ensures client.password.Some? ==> r.password == client.password
    ensures client.password.None? ==> r.password == defaults.password
  {
    var config := defaults.WithTrustCerts(client.trustSelfSignedCertificates);
    var config := IfPresent(config, client.masterUrl, (c: Config, s: string) => c.WithMasterUrl(s));
    var config := IfPresent(config, client.username, (c: Config, s: string) => c.WithUsername(s));
    var config := IfPresent(config, client.password, (c: Config, s: string) => c.WithPassword(s));
    config
  }

  /** A property of the builder model: starting the builder from an already
      built configuration with the same properties changes nothing. The
      program itself always starts from a fresh builder. */
  lemma ClientConfigurationIdempotent(client: ClientProperties, defaults: Config)
    ensures var once := GetClientConfiguration(client, defaults);
            GetClientConfiguration(client, once) == once
  {
  }

  /** With no URL or credentials supplied and the builder already trusting
      as asked, the builder's initial configuration comes out unchanged. */
  lemma NothingSuppliedKeepsDefaults(client: ClientProperties, defaults: Config)
    requires client.masterUrl.None? && client.username.None? && client.password.None?
    requires client.trustSelfSignedCertificates == defaults.trustCerts
    ensures GetClientConfiguration(client, defaults) == defaults
  {
  }

  /** With URL and both credentials supplied, the builder's initial values
      no longer matter. */
  lemma EverythingSuppliedIgnoresDefaults(client: ClientProperties, d1: Config, d2: Config)
    requires client.masterUrl.Some? && client.username.Some? && client.password.Some?
    ensures GetClientConfiguration(client, d1) == GetClientConfiguration(client, d2)
  {
  }

  /** The client the auto-configuration builds: an OpenShift client when the
      properties ask for one, a plain Kubernetes client otherwise. Either is
      given the assembled configuration. */
  datatype KubernetesClient = DefaultKubernetesClient(config: Config) | DefaultOpenShiftClient(config: Config)

  function MakeKubernetesClient(client: ClientProperties, defaults: Config): (r: KubernetesClient)
    ensures r.DefaultOpenShiftClient? <==> client.openshift
    ensures r.config.trustCerts == client.trustSelfSignedCertificates
    ensures r.config == GetClientConfiguration(client, defaults)
  {
    var config := GetClientConfiguration(client, defaults);
    if client.openshift then DefaultOpenShiftClient(config) else DefaultKubernetesClient(config)
  }
}
