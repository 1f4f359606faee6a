# Operator auto-configuration: per-controller configuration merge

A Dafny model of the configuration core of the Spring Boot starter for the
Java Operator SDK (`OperatorAutoConfiguration`). It covers three parts.

- **Configuration wrapper** (`ConfigurationWrapper`). A controller's
  configuration comes from its annotations. The wrapper overlays the
  override properties bound for that controller's name. CRD name,
  finalizer, generation-awareness, cluster scope and namespaces each take
  the property when a properties record exists and its getter is not null.
  Otherwise they take the annotation value. Name, custom-resource class and
  watch-all-namespaces always pass through from the annotations. The retry
  policy is the converted retry properties when present and the conversion
  does not answer null. Otherwise it is `RetryConfiguration.DEFAULT`, never
  the annotation's policy.
- **Registry** (`ConfigRegistry`). The auto-configuration keeps a
  `Map<String, ControllerConfiguration>`. It processes each controller in
  list order: fetch the properties under the controller's name, wrap, and
  store under the same name. The processed controller is handed back
  unchanged to be registered with the operator. A later registration under
  the same name replaces the earlier one. A lookup for a name never
  processed yields null.
- **Client configuration** (`ClientConfiguration`). The trust flag is always
  set. Master URL, username and password are set only when present. The
  client kind is chosen from the `openshift` flag.

Java's `Optional` and null references are both modelled by
`Optionals.Option`. `Optional.map` re-wraps with `ofNullable`, so a
properties getter that answers null is the same as a field not supplied.

Facts about the code that the model keeps:

- The identity law holds for every field except retry. With no properties,
  the wrapper's retry is DEFAULT even when the annotation declares another
  policy (`IdentityExactlyWhenDefaultRetry`).
- A lookup for an unknown name yields null, modelled as `None`.
- The wrapper passes the whole retry part to `asRetryConfiguration` without
  looking at its fields.
- No controller name is validated.

## Model

| member | source | states |
|---|---|---|
| ConfigurationWrapper.Wrapper.Name | operator-framework-spring-boot-starter/src/main/java/io/javaoperatorsdk/operator/springboot/starter/OperatorAutoConfiguration.java:85-88 | the name is the annotation configuration's name |
| ConfigurationWrapper.Wrapper.CrdName | operator-framework-spring-boot-starter/src/main/java/io/javaoperatorsdk/operator/springboot/starter/OperatorAutoConfiguration.java:90-93 | the CRD name is the property's when a record exists and supplies it, else the annotation's |
| ConfigurationWrapper.Wrapper.Finalizer | operator-framework-spring-boot-starter/src/main/java/io/javaoperatorsdk/operator/springboot/starter/OperatorAutoConfiguration.java:95-98 | the finalizer is the property's when supplied, else the annotation's |
| ConfigurationWrapper.Wrapper.GenerationAware | operator-framework-spring-boot-starter/src/main/java/io/javaoperatorsdk/operator/springboot/starter/OperatorAutoConfiguration.java:100-105 | generation-awareness is the property's when supplied, else the annotation's |
| ConfigurationWrapper.Wrapper.CustomResourceClass | operator-framework-spring-boot-starter/src/main/java/io/javaoperatorsdk/operator/springboot/starter/OperatorAutoConfiguration.java:107-110 | the custom-resource class is the annotation configuration's |
| ConfigurationWrapper.Wrapper.ClusterScoped | operator-framework-spring-boot-starter/src/main/java/io/javaoperatorsdk/operator/springboot/starter/OperatorAutoConfiguration.java:112-115 | cluster scope is the property's when supplied, else the annotation's |
| ConfigurationWrapper.Wrapper.Namespaces | operator-framework-spring-boot-starter/src/main/java/io/javaoperatorsdk/operator/springboot/starter/OperatorAutoConfiguration.java:117-120 | the namespace set is the property's when supplied (an empty set included), else the annotation's |
| ConfigurationWrapper.Wrapper.WatchAllNamespaces | operator-framework-spring-boot-starter/src/main/java/io/javaoperatorsdk/operator/springboot/starter/OperatorAutoConfiguration.java:122-125 | watch-all-namespaces is the baseline record's flag |
| ConfigurationWrapper.Wrapper.RetryConfiguration | operator-framework-spring-boot-starter/src/main/java/io/javaoperatorsdk/operator/springboot/starter/OperatorAutoConfiguration.java:127-133 | retry is the converted retry part when a record with a retry part exists and the conversion answers non-null, and DEFAULT in every other case, a null conversion included |
| ConfigurationWrapper.Wrapper.Resolved | operator-framework-spring-boot-starter/src/main/java/io/javaoperatorsdk/operator/springboot/starter/OperatorAutoConfiguration.java:75-134 | every field of the effective configuration is the annotation's value or the override's value for that field; retry is DEFAULT or the non-null conversion of the retry part |
| ConfigurationWrapper.IdentityLaw | operator-framework-spring-boot-starter/src/main/java/io/javaoperatorsdk/operator/springboot/starter/OperatorAutoConfiguration.java:90-133 | without a properties record, the effective configuration is the annotation configuration with retry replaced by DEFAULT |
| ConfigurationWrapper.IdentityExactlyWhenDefaultRetry | operator-framework-spring-boot-starter/src/main/java/io/javaoperatorsdk/operator/springboot/starter/OperatorAutoConfiguration.java:127-133 | without properties, the wrapper reproduces its baseline if and only if the baseline's retry is DEFAULT |
| ConfigurationWrapper.EmptyPropertiesActAsAbsent | operator-framework-spring-boot-starter/src/main/java/io/javaoperatorsdk/operator/springboot/starter/OperatorAutoConfiguration.java:90-133 | a properties record whose getters all answer null resolves like no record at all |
| ConfigurationWrapper.PassThroughIgnoresOverrides | operator-framework-spring-boot-starter/src/main/java/io/javaoperatorsdk/operator/springboot/starter/OperatorAutoConfiguration.java:85-125 | name, custom-resource class and watch-all-namespaces are the same under any two override records |
| ConfigurationWrapper.RetryIgnoresBaseline | operator-framework-spring-boot-starter/src/main/java/io/javaoperatorsdk/operator/springboot/starter/OperatorAutoConfiguration.java:127-133 | two baselines with the same properties get the same retry policy |
| ConfigurationWrapper.SuppliedFieldsIgnoreBaseline | operator-framework-spring-boot-starter/src/main/java/io/javaoperatorsdk/operator/springboot/starter/OperatorAutoConfiguration.java:90-120 | when properties supply all five overridable fields, those fields are the same for any two baselines |
| ConfigurationWrapper.ReapplyingPropertiesIsIdempotent | operator-framework-spring-boot-starter/src/main/java/io/javaoperatorsdk/operator/springboot/starter/OperatorAutoConfiguration.java:90-133 | wrapping an effective configuration again with the same properties yields it unchanged |
| ConfigurationWrapper.WidgetsExample | operator-framework-spring-boot-starter/src/main/java/io/javaoperatorsdk/operator/springboot/starter/OperatorAutoConfiguration.java:90-133 | overriding finalizer and namespaces of a concrete baseline changes exactly those two fields |
| ConfigRegistry.ProcessController | operator-framework-spring-boot-starter/src/main/java/io/javaoperatorsdk/operator/springboot/starter/OperatorAutoConfiguration.java:61-67 | the controller comes back unchanged; the registry gains its name; the stored wrapper holds its annotations and the properties fetched by that same name; other entries are untouched |
| ConfigRegistry.GetConfigurationFor | operator-framework-spring-boot-starter/src/main/java/io/javaoperatorsdk/operator/springboot/starter/OperatorAutoConfiguration.java:69-73 | a lookup finds something exactly when the controller's name is a key, and then the entry under that name |
| ConfigRegistry.RegisterAll | operator-framework-spring-boot-starter/src/main/java/io/javaoperatorsdk/operator/springboot/starter/OperatorAutoConfiguration.java:57 | registering a list adds exactly the list's names as keys and hands every controller on, in order and unchanged |
| ConfigRegistry.OperatorRegistry | operator-framework-spring-boot-starter/src/main/java/io/javaoperatorsdk/operator/springboot/starter/OperatorAutoConfiguration.java:30 | from the initially empty map, the registry's key set is the set of the controllers' names |
| ConfigRegistry.LastNamed | operator-framework-spring-boot-starter/src/main/java/io/javaoperatorsdk/operator/springboot/starter/OperatorAutoConfiguration.java:57-65 | the surviving registration for a name is a controller with that name and no later controller in the list bears it; none exists exactly when the name is absent |
| ConfigRegistry.RegisterAllLookup | operator-framework-spring-boot-starter/src/main/java/io/javaoperatorsdk/operator/springboot/starter/OperatorAutoConfiguration.java:57-72 | after registering a list, a lookup yields the wrapper of the last controller with that name, or the earlier entry if the list has none |
| ConfigRegistry.LookupAfterProcess | operator-framework-spring-boot-starter/src/main/java/io/javaoperatorsdk/operator/springboot/starter/OperatorAutoConfiguration.java:61-73 | after processing a controller, any controller with its name looks up its wrapper, whose properties are those stored under that name |
| ConfigRegistry.LastRegistrationWins | operator-framework-spring-boot-starter/src/main/java/io/javaoperatorsdk/operator/springboot/starter/OperatorAutoConfiguration.java:61-67 | of two registrations under one name, the lookup sees the later |
| ConfigRegistry.ProcessLeavesOtherNames | operator-framework-spring-boot-starter/src/main/java/io/javaoperatorsdk/operator/springboot/starter/OperatorAutoConfiguration.java:61-73 | processing a controller does not change the lookup for any other name |
| ConfigRegistry.UnknownLookupIsAbsent | operator-framework-spring-boot-starter/src/main/java/io/javaoperatorsdk/operator/springboot/starter/OperatorAutoConfiguration.java:69-73 | a name that was never registered looks up as null, not as a default configuration |
| ConfigRegistry.RegisteredLookupIsLast | operator-framework-spring-boot-starter/src/main/java/io/javaoperatorsdk/operator/springboot/starter/OperatorAutoConfiguration.java:54-73 | every registered name looks up the wrapper of the last controller registered under it |
| ConfigRegistry.ReRegistrationExample | operator-framework-spring-boot-starter/src/main/java/io/javaoperatorsdk/operator/springboot/starter/OperatorAutoConfiguration.java:54-73 | registering names a, b, a leaves keys {a, b}, with a mapped to the third controller's wrapper |
| ClientConfiguration.GetClientConfiguration | operator-framework-spring-boot-starter/src/main/java/io/javaoperatorsdk/operator/springboot/starter/OperatorAutoConfiguration.java:41-50 | the trust flag is always the supplied one; master URL, username and password are the supplied values when present and the builder's initial values when absent |
| ClientConfiguration.ClientConfigurationIdempotent | operator-framework-spring-boot-starter/src/main/java/io/javaoperatorsdk/operator/springboot/starter/OperatorAutoConfiguration.java:41-50 | a property of the builder model, not a path the program takes: starting the builder from an already built configuration with the same properties changes nothing |
| ClientConfiguration.NothingSuppliedKeepsDefaults | operator-framework-spring-boot-starter/src/main/java/io/javaoperatorsdk/operator/springboot/starter/OperatorAutoConfiguration.java:44-49 | with no URL or credentials and a matching trust flag, the builder's initial configuration comes out unchanged |
| ClientConfiguration.EverythingSuppliedIgnoresDefaults | operator-framework-spring-boot-starter/src/main/java/io/javaoperatorsdk/operator/springboot/starter/OperatorAutoConfiguration.java:44-49 | with URL, username and password all supplied, the result does not depend on the builder's initial values |
| ClientConfiguration.MakeKubernetesClient | operator-framework-spring-boot-starter/src/main/java/io/javaoperatorsdk/operator/springboot/starter/OperatorAutoConfiguration.java:32-39 | an OpenShift client is built exactly when the openshift flag is set, and either client gets the assembled configuration |

## Left out

- Spring wiring: `@Configuration`, `@Bean`, `@Autowired`, `@ConditionalOnMissingBean` and property binding. The bound properties are plain parameters (`PropertiesMap`, `ClientProperties`).
- `Operator` construction and `Operator.register`. `RegisterAll` returns the sequence of controllers handed to it instead. The operator is not part of this model.
- The network clients. `DefaultKubernetesClient` and `DefaultOpenShiftClient` are only tags around the configuration they receive.
- The `ConfigBuilder` starting values. They come from the client library's own autoconfiguration, so they are the parameter `defaults`. Any normalisation `ConfigBuilder.build()` applies is not modelled. Only the four fields the starter sets are modelled.
- Null controller names. Names are never null in the model. The auto-configuration's `ConcurrentHashMap` throws NullPointerException on a null key, both in `processController` (`put`) and in `getConfigurationFor` (`get`). So the null result for an unknown name covers non-null names only.
- Thread safety of the `ConcurrentHashMap`. The registry is a sequential `map`, updated in list order.
- `AnnotationConfiguration`'s reading of annotations is not part of this model. A controller carries its declared configuration as a `ControllerConfiguration` value. This includes `watchAllNamespaces`. The baseline does not see the wrapper's overrides. In Java, a parent getter called through `super` runs with the wrapper as `this`, so it could reach an overridden getter. For example, `super.watchAllNamespaces()` could reach `getNamespaces()`, and `super.getFinalizer()` could reach `getCRDName()`. Such dispatch is not modelled.
- `RetryProperties.asRetryConfiguration` is not part of this model. It is a function parameter `asRetry` that may answer null (`None`), and the shape of `RetryProperties` is a stand-in. `RetryConfiguration.DEFAULT` is the distinguished value `Default`.
- `ControllerProperties` is not part of this model. Each of its getters is modelled as possibly null. If a getter returns a primitive `boolean`, the corresponding field is simply always `Some`.
- Java object identity is not modelled. A wrapper is compared by its contents, and the retry policy by its value.
- `ControllerImplemented2InterfacesExpected.java` is a compile-test fixture with no logic.
