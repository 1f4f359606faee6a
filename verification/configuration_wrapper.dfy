/** The configuration wrapper: a controller's annotation-derived baseline
    combined with the override properties found for its name.

    Each overridable getter takes the property's value when a properties
    record exists and its field is not null, and the baseline's value
    otherwise. Name, custom-resource class and watch-all-namespaces always
    come from the baseline. The retry policy does NOT fall back to the
    baseline: without retry properties it is RetryConfiguration.DEFAULT. */
module ConfigurationWrapper {
  import opened Optionals
  import opened ControllerConfig

  datatype Wrapper = Wrapper(base: ControllerConfiguration, properties: Option<ControllerProperties>)
  {
    function Name(): (r: string)
      ensures r == base.name
    {
      base.name
    }

    function CrdName(): (r: string)
      ensures properties.Some? && properties.value.crdName.Some? ==> r == properties.value.crdName.value
      ensures properties.None? || properties.value.crdName.None? ==> r == base.crdName
    {
      properties.Map((p: ControllerProperties) => p.crdName).OrElse(base.crdName)
    }

    function Finalizer(): (r: string)
      ensures properties.Some? && properties.value.finalizer.Some? ==> r == properties.value.finalizer.value
      ensures properties.None? || properties.value.finalizer.None? ==> r == base.finalizer
    {
      properties.Map((p: ControllerProperties) => p.finalizer).OrElse(base.finalizer)
    }

    function GenerationAware(): (r: bool)
      ensures properties.Some? && properties.value.generationAware.Some? ==> r == properties.value.generationAware.value
      ensures properties.None? || properties.value.generationAware.None? ==> r == base.generationAware
    {
      properties.Map((p: ControllerProperties) => p.generationAware).OrElse(base.generationAware)
    }

    function CustomResourceClass(): (r: string)
      ensures r == base.customResourceClass
    {
      base.customResourceClass
    }

    function ClusterScoped(): (r: bool)
      ensures properties.Some? && properties.value.clusterScoped.Some? ==> r == properties.value.clusterScoped.value
      ensures properties.None? || properties.value.clusterScoped.None? ==> r == base.clusterScoped
    {
      properties.Map((p: ControllerProperties) => p.clusterScoped).OrElse(base.clusterScoped)
    }

    function Namespaces(): (r: set<string>)
      ensures properties.Some? && properties.value.namespaces.Some? ==> r == properties.value.namespaces.value
      ensures properties.None? || properties.value.namespaces.None? ==> r == base.namespaces
    {
      properties.Map((p: ControllerProperties) => p.namespaces).OrElse(base.namespaces)
    }

    function WatchAllNamespaces(): (r: bool)
      ensures r == base.watchAllNamespaces
    {
      base.watchAllNamespaces
    }

    /** `asRetry` is RetryProperties.asRetryConfiguration; a null answer
        from it ends in DEFAULT, like an absent retry part. */
    function RetryConfiguration(asRetry: RetryProperties -> Option<RetryConfig>): (r: RetryConfig)
      ensures properties.None? || properties.value.retry.None? ==> r == Default
      ensures properties.Some? && properties.value.retry.Some? ==>
                r == asRetry(properties.value.retry.value).OrElse(Default)
    {
      properties
        .Map((p: ControllerProperties) => p.retry)
        .Map(asRetry)
        .OrElse(Default)
    }

    /** Everything the wrapper answers, read in one go. Every field is the
        baseline's or the override's for that field, never anything else;
        the retry policy is the converted override or DEFAULT. */
    function Resolved(asRetry: RetryProperties -> Option<RetryConfig>): (r: ControllerConfiguration)
      ensures r.name == base.name
      ensures r.customResourceClass == base.customResourceClass
      ensures r.watchAllNamespaces == base.watchAllNamespaces
      ensures r.crdName == base.crdName || (properties.Some? && properties.value.crdName == Some(r.crdName))
      ensures r.finalizer == base.finalizer || (properties.Some? && properties.value.finalizer == Some(r.finalizer))
      ensures r.generationAware == base.generationAware
              || (properties.Some? && properties.value.generationAware == Some(r.generationAware))
      ensures r.clusterScoped == base.clusterScoped
              || (properties.Some? && properties.value.clusterScoped == Some(r.clusterScoped))
      ensures r.namespaces == base.namespaces
              || (properties.Some? && properties.value.namespaces == Some(r.namespaces))
      ensures r.retry == Default
              || (properties.Some? && properties.value.retry.Some?
                  && asRetry(properties.value.retry.value) == Some(r.retry))
    {
      ControllerConfiguration(
        Name(), CrdName(), Finalizer(), GenerationAware(), CustomResourceClass(),
        ClusterScoped(), Namespaces(), WatchAllNamespaces(), RetryConfiguration(asRetry))
    }
  }

  /** Identity law: with no properties record every field is the baseline's,
      except the retry policy, which is DEFAULT whatever the baseline says. */
  lemma IdentityLaw(b: ControllerConfiguration, asRetry: RetryProperties -> Option<RetryConfig>)
    ensures Wrapper(b, None).Resolved(asRetry) == b.(retry := Default)
  {
  }

  /** The wrapper without properties reproduces its baseline exactly when the
      baseline's retry policy is already DEFAULT. */
  lemma IdentityExactlyWhenDefaultRetry(b: ControllerConfiguration, asRetry: RetryProperties -> Option<RetryConfig>)
    ensures Wrapper(b, None).Resolved(asRetry) == b <==> b.retry == Default
  {
    IdentityLaw(b, asRetry);
  }

  /** A properties record that supplies no field behaves as no record. */
  lemma EmptyPropertiesActAsAbsent(b: ControllerConfiguration, asRetry: RetryProperties -> Option<RetryConfig>)
    ensures Wrapper(b, Some(NoOverrides)).Resolved(asRetry) == Wrapper(b, None).Resolved(asRetry)
  {
  }

  /** Name, custom-resource class and watch-all-namespaces do not depend on
      the overrides at all. */
  lemma PassThroughIgnoresOverrides(b: ControllerConfiguration, p: Option<ControllerProperties>,
                                    q: Option<ControllerProperties>)
    ensures Wrapper(b, p).Name() == Wrapper(b, q).Name() == b.name
    ensures Wrapper(b, p).CustomResourceClass() == Wrapper(b, q).CustomResourceClass() == b.customResourceClass
    ensures Wrapper(b, p).WatchAllNamespaces() == Wrapper(b, q).WatchAllNamespaces() == b.watchAllNamespaces
  {
  }

  /** The retry policy depends on the properties only, never on the baseline. */
  lemma RetryIgnoresBaseline(b1: ControllerConfiguration, b2: ControllerConfiguration,
                             p: Option<ControllerProperties>, asRetry: RetryProperties -> Option<RetryConfig>)
    ensures Wrapper(b1, p).RetryConfiguration(asRetry) == Wrapper(b2, p).RetryConfiguration(asRetry)
  {
  }

  /** When the properties supply every overridable field but retry, those
      fields no longer depend on the baseline. */
  lemma SuppliedFieldsIgnoreBaseline(b1: ControllerConfiguration, b2: ControllerConfiguration,
                                     p: ControllerProperties)
    requires p.crdName.Some? && p.finalizer.Some? && p.generationAware.Some?
    requires p.clusterScoped.Some? && p.namespaces.Some?
    ensures Wrapper(b1, Some(p)).CrdName() == Wrapper(b2, Some(p)).CrdName()
    ensures Wrapper(b1, Some(p)).Finalizer() == Wrapper(b2, Some(p)).Finalizer()
    ensures Wrapper(b1, Some(p)).GenerationAware() == Wrapper(b2, Some(p)).GenerationAware()
    ensures Wrapper(b1, Some(p)).ClusterScoped() == Wrapper(b2, Some(p)).ClusterScoped()
    ensures Wrapper(b1, Some(p)).Namespaces() == Wrapper(b2, Some(p)).Namespaces()
  {
  }

  /** Applying the same properties to an already resolved configuration
      changes nothing: the merge is idempotent. */
  lemma ReapplyingPropertiesIsIdempotent(b: ControllerConfiguration, p: Option<ControllerProperties>,
                                         asRetry: RetryProperties -> Option<RetryConfig>)
    ensures var once := Wrapper(b, p).Resolved(asRetry);
            Wrapper(once, p).Resolved(asRetry) == once
  {
  }

  /** The per-field merge on a concrete controller: a baseline with finalizer
      "widgets.finalizer", generation-aware, namespaced to {"default"}, and
      properties supplying only a finalizer and namespaces. */
  lemma WidgetsExample(asRetry: RetryProperties -> Option<RetryConfig>)
    ensures
      var b := ControllerConfiguration("widgets", "widgets.example.com", "widgets.finalizer", true,
                                       "Widget", false, {"default"}, false, Default);
      var p := NoOverrides.(finalizer := Some("custom.finalizer"), namespaces := Some({"ns1", "ns2"}));
      Wrapper(b, Some(p)).Resolved(asRetry)
        == b.(finalizer := "custom.finalizer", namespaces := {"ns1", "ns2"})
  {
  }
}
