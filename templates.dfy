/**
 * The v1beta1 "create shoot" step builder of the testrun renderer: given a cloud
 * provider, an optional step name, the upstream dependencies and the shoot settings,
 * it builds a generator step and a create step that depends on it.
 */
module Templates {
  import opened Wrappers
  import opened V1beta1
  import opened Common
  import opened Strconv

  // Names and values of the configuration elements. They are defined elsewhere in the
  // templates package and are kept opaque: nothing is assumed about their values, not
  // even that they are distinct.
  const ConfigShootName: string
  const ConfigProjectNamespaceName: string
  const ConfigK8sVersionName: string
  const ConfigSeedName: string
  const ConfigSeedValue: string
  const ConfigShootAnnotations: string
  const ConfigAllowPrivilegedContainers: string
  const ConfigControlplaneProviderPathName: string
  const ConfigControlplaneProviderPath: string
  const ConfigInfrastructureProviderPathName: string
  const ConfigInfrastructureProviderPath: string
  const ConfigZoneName: string
  const ConfigCloudproviderName: string
  const ConfigProviderTypeName: string
  const ConfigCloudprofileName: string
  const ConfigSecretBindingName: string
  const ConfigRegionName: string

  /** util.MarshalMap: serialises the shoot annotations into one string (not modelled). */
  const MarshalMap: map<string, string> -> string

  /**
   * The shoot settings the builder reads. `allowPrivilegedContainers` is Go's *bool:
   * None stands for nil, which is distinct from an explicit false.
   */
  datatype CreateShootConfig = CreateShootConfig(
    shootName: string,
    namespace: string,
    k8sVersion: string,
    allowPrivilegedContainers: Option<bool>,
    shootAnnotations: map<string, string>)

  datatype BuildError = UnsupportedCloudProvider(provider: CloudProvider)

  /**
   * The Go triple (steps, name, error). Both cases carry the step list and the name,
   * so what the error path returns beside the error is part of the model.
   */
  datatype Result =
    | Ok(steps: seq<DAGStep>, name: string)
    | Err(steps: seq<DAGStep>, name: string, error: BuildError)

  /** The generator step of a create step named `name`. */
  function GeneratorStepName(name: string): string {
    name + "-gen"
  }

  /** The package-level defaultProviderConfig: the two provider extension paths. */
  const DefaultProviderConfig: seq<ConfigElement> := [
    Env(ConfigControlplaneProviderPathName, ConfigControlplaneProviderPath),
    Env(ConfigInfrastructureProviderPathName, ConfigInfrastructureProviderPath)
  ]

  /**
   * defaultShootConfig: the five fixed entries, then the privileged-containers entry
   * only when the flag is set.
   */
  function DefaultShootConfig(cfg: CreateShootConfig): (r: seq<ConfigElement>)
    ensures |r| == if cfg.allowPrivilegedContainers.Some? then 6 else 5
    ensures AllEnv(r)
  {
    var fixed := [
      Env(ConfigShootName, cfg.shootName),
      Env(ConfigProjectNamespaceName, cfg.namespace),
      Env(ConfigK8sVersionName, cfg.k8sVersion),
      Env(ConfigSeedName, ConfigSeedValue),
      Env(ConfigShootAnnotations, MarshalMap(cfg.shootAnnotations))
    ];
    match cfg.allowPrivilegedContainers
    case None => fixed
    case Some(allow) => fixed + [Env(ConfigAllowPrivilegedContainers, FormatBool(allow))]
  }

  /** A generator step as all three providers build it. */
  function GeneratorStep(name: string, dependencies: seq<string>, definition: string, config: seq<ConfigElement>): DAGStep {
    DAGStep(GeneratorStepName(name), StepDefinition(definition, config), false, dependencies, "", None)
  }

  /** v1beta1GCPShootConfig: the generator step and `cfg` extended by the GCP entries. */
  function V1beta1GCPShootConfig(name: string, dependencies: seq<string>, cfg: seq<ConfigElement>): (r: (DAGStep, seq<ConfigElement>))
    ensures r.0.name == GeneratorStepName(name) && r.0.dependsOn == dependencies
    ensures |r.0.definition.config| == 3 && |r.1| == |cfg| + 6 && r.1[..|cfg|] == cfg
  {
    var step := GeneratorStep(name, dependencies, "gen-provider-gcp",
      DefaultProviderConfig + [Env(ConfigZoneName, "europe-west1-b")]);
    (step, cfg + [
      Env(ConfigCloudproviderName, "gcp"),
      Env(ConfigProviderTypeName, "gcp"),
      Env(ConfigCloudprofileName, "gcp"),
      Env(ConfigSecretBindingName, "core-gcp-gcp"),
      Env(ConfigRegionName, "europe-west1"),
      Env(ConfigZoneName, "europe-west1-b")
    ])
  }

  /** v1beta1AWSShootConfig: the generator step and `cfg` extended by the AWS entries. */
  function V1beta1AWSShootConfig(name: string, dependencies: seq<string>, cfg: seq<ConfigElement>): (r: (DAGStep, seq<ConfigElement>))
    ensures r.0.name == GeneratorStepName(name) && r.0.dependsOn == dependencies
    ensures |r.0.definition.config| == 3 && |r.1| == |cfg| + 6 && r.1[..|cfg|] == cfg
  {
    var step := GeneratorStep(name, dependencies, "gen-provider-aws",
      DefaultProviderConfig + [Env(ConfigZoneName, "eu-west-1b")]);
    (step, cfg + [
      Env(ConfigCloudproviderName, "aws"),
      Env(ConfigProviderTypeName, "aws"),
      Env(ConfigCloudprofileName, "aws"),
      Env(ConfigSecretBindingName, "core-aws-aws"),
      Env(ConfigRegionName, "eu-west-1"),
      Env(ConfigZoneName, "eu-west-1b")
    ])
  }

  /**
   * v1beta1AzureShootConfig: the generator step carries only the default provider
   * config, and the Azure entries have no zone.
   */
  function V1beta1AzureShootConfig(name: string, dependencies: seq<string>, cfg: seq<ConfigElement>): (r: (DAGStep, seq<ConfigElement>))
    ensures r.0.name == GeneratorStepName(name) && r.0.dependsOn == dependencies
    ensures |r.0.definition.config| == 2 && |r.1| == |cfg| + 5 && r.1[..|cfg|] == cfg
  {
    var step := GeneratorStep(name, dependencies, "gen-provider-azure", DefaultProviderConfig);
    (step, cfg + [
      Env(ConfigCloudproviderName, "azure"),
      Env(ConfigProviderTypeName, "azure"),
      Env(ConfigCloudprofileName, "azure"),
      Env(ConfigSecretBindingName, "core-azure-azure"),
      Env(ConfigRegionName, "westeurope")
    ])
  }

  /** The create step that follows a generator step. */
  function CreateStep(name: string, generator: DAGStep, config: seq<ConfigElement>): DAGStep {
    DAGStep(name, StepDefinition("create-shoot", config), false, [generator.name], "", None)
  }

  /**
   * stepCreateShootV1beta1: the generator and create steps and the create step's name,
   * or an error with no steps and an empty name for an unsupported provider.
   */
  function StepCreateShootV1beta1(cloudprovider: CloudProvider, name: string, dependencies: seq<string>, cfg: CreateShootConfig): (r: Result)
    ensures r.Err? <==> !cloudprovider.Supported()
    ensures r.Err? ==> r.error == UnsupportedCloudProvider(cloudprovider)
  {
    var stepConfig := DefaultShootConfig(cfg);
    match cloudprovider
    case CloudProviderAWS =>
      var name := if name == "" then "create-shoot-aws" else name;
      var (generator, config) := V1beta1AWSShootConfig(name, dependencies, stepConfig);
      Ok([generator, CreateStep(name, generator, config)], name)
    case CloudProviderGCP =>
      var name := if name == "" then "create-shoot-gcp" else name;
      var (generator, config) := V1beta1GCPShootConfig(name, dependencies, stepConfig);
      Ok([generator, CreateStep(name, generator, config)], name)
    case CloudProviderAzure =>
      var name := if name == "" then "create-shoot-azure" else name;
      var (generator, config) := V1beta1AzureShootConfig(name, dependencies, stepConfig);
      Ok([generator, CreateStep(name, generator, config)], name)
    case OtherProvider(_) =>
      Err([], "", UnsupportedCloudProvider(cloudprovider))
  }
}
