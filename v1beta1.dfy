/**
 * The parts of the testmachinery v1beta1 API that the shoot templates fill in:
 * typed configuration elements and DAG steps. Only the fields the templates set
 * are modelled.
 */
module V1beta1 {
  import opened Wrappers

  /** The kind of a configuration element: an environment variable or a file. */
  datatype ConfigType = ConfigTypeEnv | ConfigTypeFile

  /** A typed key/value pair attached to a step definition; order is significant. */
  datatype ConfigElement = ConfigElement(configType: ConfigType, name: string, value: string)

  /** The inner definition of a step: which test definition to run, with which config. */
  datatype StepDefinition = StepDefinition(name: string, config: seq<ConfigElement>)

  /**
   * A node of a testrun DAG. `annotations` is None where the Go struct holds a nil map.
   */
  datatype DAGStep = DAGStep(
    name: string,
    definition: StepDefinition,
    useGlobalArtifacts: bool,
    dependsOn: seq<string>,
    artifactsFrom: string,
    annotations: Option<map<string, string>>)

  /** An environment-variable element, the only kind the shoot templates produce. */
  function Env(name: string, value: string): ConfigElement {
    ConfigElement(ConfigTypeEnv, name, value)
  }

  /** Every element of `s` is an environment variable. */
  predicate AllEnv(s: seq<ConfigElement>) {
    forall i :: 0 <= i < |s| ==> s[i].configType == ConfigTypeEnv
  }
}
