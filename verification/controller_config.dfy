/** The records the configuration merge works on.

    `ControllerConfiguration` is the view of a controller's configuration the
    operator runtime queries: the baseline read from a controller's
    annotations has this shape, and so does what the configuration wrapper
    answers once overrides are applied. `ControllerProperties` and
    `RetryProperties` are the externally bound override settings for one
    controller. */
module ControllerConfig {
  import opened Optionals

  /** A retry policy. `Default` is the shared RetryConfiguration.DEFAULT
      instance; `Custom` is any other policy, such as one built from
      retry properties. */
  datatype RetryConfig =
    | Default
    | Custom(maxAttempts: int, initialInterval: int, intervalMultiplier: real, maxInterval: int)

  /** The getters of ControllerConfiguration, as plain values.
      `customResourceClass` names the Java class of the custom resource. */
  datatype ControllerConfiguration = ControllerConfiguration(
    name: string,
    crdName: string,
    finalizer: string,
    generationAware: bool,
    customResourceClass: string,
    clusterScoped: bool,
    namespaces: set<string>,
    watchAllNamespaces: bool,
    retry: RetryConfig)

  /** Retry settings bound from configuration; each may be left unset. */
  datatype RetryProperties = RetryProperties(
    maxAttempts: Option<int>,
    initialInterval: Option<int>,
    intervalMultiplier: Option<real>,
    maxInterval: Option<int>)

  /** Override settings for one controller. A `None` field is a getter that
      answers null, which the merge treats as "not supplied". */
  datatype ControllerProperties = ControllerProperties(
    crdName: Option<string>,
    finalizer: Option<string>,
    generationAware: Option<bool>,
    clusterScoped: Option<bool>,
    namespaces: Option<set<string>>,
    retry: Option<RetryProperties>)

  /** A properties record that supplies nothing. */
  const NoOverrides := ControllerProperties(None, None, None, None, None, None)
}
