/**
 * What the create-shoot builder promises: a reference table of the per-provider
 * literals, a reader for the shoot part of the create step's config, and lemmas
 * relating stepCreateShootV1beta1 to both.
 */
module TemplatesProperties {
  import opened Wrappers
  import opened V1beta1
  import opened Common
  import opened Strconv
  import opened Templates

  /** The literals that distinguish one provider's template from another's. */
  datatype ProviderTable = ProviderTable(
    defaultName: string,
    generatorDefinition: string,
    tag: string,
    secretBinding: string,
    region: string,
    zone: Option<string>)

  /** The per-provider table; Azure has no zone. */
  function Table(p: CloudProvider): ProviderTable
    requires p.Supported()
  {
    match p
    case CloudProviderAWS =>
      ProviderTable("create-shoot-aws", "gen-provider-aws", "aws", "core-aws-aws", "eu-west-1", Some("eu-west-1b"))
    case CloudProviderGCP =>
      ProviderTable("create-shoot-gcp", "gen-provider-gcp", "gcp", "core-gcp-gcp", "europe-west1", Some("europe-west1-b"))
    case CloudProviderAzure =>
      ProviderTable("create-shoot-azure", "gen-provider-azure", "azure", "core-azure-azure", "westeurope", None)
  }

  /** The zone entry, if the provider has one. */
  function ZoneEntries(t: ProviderTable): seq<ConfigElement> {
    match t.zone
    case None => []
    case Some(z) => [Env(ConfigZoneName, z)]
  }

  /** The generator step's config built generically from a table. */
  function GeneratorConfig(t: ProviderTable): seq<ConfigElement> {
    DefaultProviderConfig + ZoneEntries(t)
  }

  /** The entries appended to the create step's config, built generically from a table. */
  function ProviderEntries(t: ProviderTable): seq<ConfigElement> {
    [
      Env(ConfigCloudproviderName, t.tag),
      Env(ConfigProviderTypeName, t.tag),
      Env(ConfigCloudprofileName, t.tag),
      Env(ConfigSecretBindingName, t.secretBinding),
      Env(ConfigRegionName, t.region)
    ] + ZoneEntries(t)
  }

  /** Each provider function is the generic assembly over its table. */
  lemma ProviderFunctionsMatchTable(name: string, dependencies: seq<string>, cfg: seq<ConfigElement>)
    ensures V1beta1AWSShootConfig(name, dependencies, cfg) ==
      (GeneratorStep(name, dependencies, Table(CloudProviderAWS).generatorDefinition, GeneratorConfig(Table(CloudProviderAWS))),
       cfg + ProviderEntries(Table(CloudProviderAWS)))
    ensures V1beta1GCPShootConfig(name, dependencies, cfg) ==
      (GeneratorStep(name, dependencies, Table(CloudProviderGCP).generatorDefinition, GeneratorConfig(Table(CloudProviderGCP))),
       cfg + ProviderEntries(Table(CloudProviderGCP)))
    ensures V1beta1AzureShootConfig(name, dependencies, cfg) ==
      (GeneratorStep(name, dependencies, Table(CloudProviderAzure).generatorDefinition, GeneratorConfig(Table(CloudProviderAzure))),
       cfg + ProviderEntries(Table(CloudProviderAzure)))
  {
    // The entries each function appends are what it appends to an empty list.
    assert ProviderEntries(Table(CloudProviderAWS)) == V1beta1AWSShootConfig(name, dependencies, []).1;
    assert ProviderEntries(Table(CloudProviderGCP)) == V1beta1GCPShootConfig(name, dependencies, []).1;
    assert ProviderEntries(Table(CloudProviderAzure)) == V1beta1AzureShootConfig(name, dependencies, []).1;
    assert GeneratorConfig(Table(CloudProviderAzure)) == DefaultProviderConfig;
  }

  /** An unsupported provider yields the error and nothing else: no steps and no name. */
  lemma UnsupportedProviderReturnsNothing(p: CloudProvider, name: string, dependencies: seq<string>, cfg: CreateShootConfig)
    ensures StepCreateShootV1beta1(p, name, dependencies, cfg).Err? ==>
      StepCreateShootV1beta1(p, name, dependencies, cfg).steps == [] &&
      StepCreateShootV1beta1(p, name, dependencies, cfg).name == ""
  {
  }

  /** An empty name is replaced by the provider's default; any other name is kept. */
  lemma ReturnedName(p: CloudProvider, name: string, dependencies: seq<string>, cfg: CreateShootConfig)
    requires p.Supported()
    ensures StepCreateShootV1beta1(p, name, dependencies, cfg).name ==
      if name == "" then Table(p).defaultName else name
    ensures name == "" && p == CloudProviderAWS ==> StepCreateShootV1beta1(p, name, dependencies, cfg).name == "create-shoot-aws"
    ensures name == "" && p == CloudProviderGCP ==> StepCreateShootV1beta1(p, name, dependencies, cfg).name == "create-shoot-gcp"
    ensures name == "" && p == CloudProviderAzure ==> StepCreateShootV1beta1(p, name, dependencies, cfg).name == "create-shoot-azure"
  {
  }

  /**
   * On success there are exactly two steps, generator first: the create step carries
   * the returned name, runs "create-shoot" and depends only on the generator, which is
   * named after it with "-gen" and inherits the caller's dependencies.
   */
  lemma StepWiring(p: CloudProvider, name: string, dependencies: seq<string>, cfg: CreateShootConfig)
    ensures var r := StepCreateShootV1beta1(p, name, dependencies, cfg);
      r.Ok? ==>
        && |r.steps| == 2
        && r.steps[1].name == r.name
        && r.steps[1].definition.name == "create-shoot"
        && !r.steps[1].useGlobalArtifacts
        && r.steps[1].artifactsFrom == ""
        && r.steps[1].annotations == None
        && r.steps[0].name == r.name + "-gen"
        && r.steps[1].dependsOn == [r.steps[0].name]
        && r.steps[0].dependsOn == dependencies
        && !r.steps[0].useGlobalArtifacts
        && r.steps[0].artifactsFrom == ""
        && r.steps[0].annotations == None
  {
  }

  /**
   * The generator and create steps have different names, so the create step never
   * depends on itself and the two steps form a two-node chain.
   */
  lemma CreateStepNotSelfDependent(p: CloudProvider, name: string, dependencies: seq<string>, cfg: CreateShootConfig)
    ensures var r := StepCreateShootV1beta1(p, name, dependencies, cfg);
      r.Ok? ==>
        && |r.steps| == 2
        && r.steps[0].name != r.steps[1].name
        && r.steps[1].name !in r.steps[1].dependsOn
  {
    var r := StepCreateShootV1beta1(p, name, dependencies, cfg);
    if r.Ok? {
      StepWiring(p, name, dependencies, cfg);
      assert |r.steps[0].name| == |r.steps[1].name| + 4;
    }
  }

  /**
   * The generator runs the provider's generator definition on the default provider
   * config plus the zone (none for Azure); the create step's config is the default
   * shoot config followed by the provider's entries (five for Azure, six otherwise).
   */
  lemma StepConfigs(p: CloudProvider, name: string, dependencies: seq<string>, cfg: CreateShootConfig)
    requires p.Supported()
    ensures var r := StepCreateShootV1beta1(p, name, dependencies, cfg);
      && |r.steps| == 2
      && r.steps[0].definition == StepDefinition(Table(p).generatorDefinition, GeneratorConfig(Table(p)))
      && r.steps[1].definition.config == DefaultShootConfig(cfg) + ProviderEntries(Table(p))
      && AllEnv(r.steps[0].definition.config)
      && AllEnv(r.steps[1].definition.config)
  {
  }

  /**
   * The tri-state privileged-containers flag: unset adds no sixth entry, a set flag
   * adds exactly one, holding its formatted value.
   */
  lemma PrivilegedContainersEntry(cfg: CreateShootConfig)
    ensures cfg.allowPrivilegedContainers.Some? ==>
      DefaultShootConfig(cfg)[5] == Env(ConfigAllowPrivilegedContainers, FormatBool(cfg.allowPrivilegedContainers.value))
  {
  }

  /** What a consumer reads back from the shoot part of a create step's config. */
  datatype ShootSettings = ShootSettings(
    shootName: string,
    namespace: string,
    k8sVersion: string,
    seed: string,
    annotations: string,
    allowPrivilegedContainers: Option<bool>)

  /** The settings the defaultShootConfig entries of `cfg` are meant to carry. */
  function SettingsOf(cfg: CreateShootConfig): ShootSettings {
    ShootSettings(cfg.shootName, cfg.namespace, cfg.k8sVersion, ConfigSeedValue,
      MarshalMap(cfg.shootAnnotations), cfg.allowPrivilegedContainers)
  }

  /** Env element `e` is named `name`. */
  predicate IsEnv(e: ConfigElement, name: string) {
    e.configType == ConfigTypeEnv && e.name == name
  }

  /**
   * Reads the shoot entries positionally: five fixed entries, optionally followed by
   * the privileged-containers entry whose value must parse as a boolean.
   */
  function ReadShootSettings(s: seq<ConfigElement>): Option<ShootSettings> {
    if !(|s| == 5 || |s| == 6) then None
    else if !(IsEnv(s[0], ConfigShootName) && IsEnv(s[1], ConfigProjectNamespaceName)
              && IsEnv(s[2], ConfigK8sVersionName) && IsEnv(s[3], ConfigSeedName)
              && IsEnv(s[4], ConfigShootAnnotations)) then None
    else if |s| == 5 then
      Some(ShootSettings(s[0].value, s[1].value, s[2].value, s[3].value, s[4].value, None))
    else if !IsEnv(s[5], ConfigAllowPrivilegedContainers) then None
    else match ParseBool(s[5].value)
      case None => None
      case Some(allow) => Some(ShootSettings(s[0].value, s[1].value, s[2].value, s[3].value, s[4].value, Some(allow)))
  }

  /** Reading defaultShootConfig back recovers every setting, the tri-state flag included. */
  lemma ReadDefaultShootConfig(cfg: CreateShootConfig)
    ensures ReadShootSettings(DefaultShootConfig(cfg)) == Some(SettingsOf(cfg))
  {
    if cfg.allowPrivilegedContainers.Some? {
      ParseFormatBool(cfg.allowPrivilegedContainers.value);
    }
  }

  /**
   * The shoot part of a successful create step's config reads back as the caller's
   * settings: nothing is lost or reordered by appending the provider entries.
   */
  lemma CreateConfigCarriesSettings(p: CloudProvider, name: string, dependencies: seq<string>, cfg: CreateShootConfig)
    requires p.Supported()
    ensures var config := StepCreateShootV1beta1(p, name, dependencies, cfg).steps[1].definition.config;
      |config| >= |ProviderEntries(Table(p))| &&
      ReadShootSettings(config[..|config| - |ProviderEntries(Table(p))|]) == Some(SettingsOf(cfg))
  {
    var config := StepCreateShootV1beta1(p, name, dependencies, cfg).steps[1].definition.config;
    StepConfigs(p, name, dependencies, cfg);
    assert config[..|config| - |ProviderEntries(Table(p))|] == DefaultShootConfig(cfg);
    ReadDefaultShootConfig(cfg);
  }

  /**
   * Two successful builds for the same provider with the same create-step config, whatever
   * step names and dependencies they were given, were
   * given the same shoot name, namespace, Kubernetes version and privileged flag: in
   * particular an unset flag is never confused with an explicit false.
   */
  lemma CreateConfigDeterminesSettings(p: CloudProvider, name1: string, name2: string,
                                       dependencies1: seq<string>, dependencies2: seq<string>,
                                       cfg1: CreateShootConfig, cfg2: CreateShootConfig)
    requires p.Supported()
    requires StepCreateShootV1beta1(p, name1, dependencies1, cfg1).steps[1].definition.config ==
             StepCreateShootV1beta1(p, name2, dependencies2, cfg2).steps[1].definition.config
    ensures cfg1.shootName == cfg2.shootName
    ensures cfg1.namespace == cfg2.namespace
    ensures cfg1.k8sVersion == cfg2.k8sVersion
    ensures cfg1.allowPrivilegedContainers == cfg2.allowPrivilegedContainers
  {
    CreateConfigCarriesSettings(p, name1, dependencies1, cfg1);
    CreateConfigCarriesSettings(p, name2, dependencies2, cfg2);
  }
}
