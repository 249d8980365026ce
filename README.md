# v1beta1 create-shoot step builder

A Dafny model of `stepCreateShootV1beta1` from the testrun renderer's templates
package. The function takes a cloud provider, an optional step name, the names of the
upstream steps and the shoot settings (`CreateShootConfig`). It returns two testrun
DAG steps plus the create step's name. The first step is a generator step that renders
the provider extension config. The second is a `create-shoot` step that depends on
the generator. An unsupported provider gives an error instead.

Files:

- `wrappers.dfy`: `Option`, which stands for Go's nil pointers.
- `v1beta1.dfy`: `ConfigElement`, `StepDefinition` and `DAGStep`, with only the fields the builder sets.
- `common.dfy`: the `CloudProvider` tag, with AWS, GCP, Azure and any other tag.
- `strconv.dfy`: `FormatBool` and its inverse `ParseBool`.
- `templates.dfy`: the builder. It holds `defaultProviderConfig`, `defaultShootConfig`, the three provider functions and `stepCreateShootV1beta1`.
- `templates_properties.dfy`: what the builder promises. It holds a per-provider reference table of the literals, a reader that decodes the shoot entries of a config list, and the lemmas.

The configuration names and values (`ConfigShootName`, `ConfigSeedValue`,
`ConfigZoneName`, …) are defined in other files of the templates package. Here they
are module-level constants with no value given. No proof depends on their values, and none assumes two of them differ.
`util.MarshalMap` is handled the same way: an uninterpreted function from the
annotation map to a string.

The generator step carries only the two provider extension paths, plus the zone for
AWS and GCP. It does not carry the region, cloud profile, secret binding or provider
type; only the create step gets those. The model follows the code here.

## Model

| member | source | states |
|---|---|---|
| `Templates.StepCreateShootV1beta1` | pkg/testrun_renderer/templates/shoots_v1beta1.go:26-63 | the result is an error exactly when the provider is not AWS, GCP or Azure, and that error names the offending provider |
| `TemplatesProperties.UnsupportedProviderReturnsNothing` | pkg/testrun_renderer/templates/shoots_v1beta1.go:45-46 | an error result has an empty step list and an empty name, so no partial result is returned |
| `TemplatesProperties.ReturnedName` | pkg/testrun_renderer/templates/shoots_v1beta1.go:30-44 | an empty name becomes "create-shoot-aws", "create-shoot-gcp" or "create-shoot-azure"; a non-empty name is returned unchanged |
| `TemplatesProperties.StepWiring` | pkg/testrun_renderer/templates/shoots_v1beta1.go:49-62 | on success there are exactly two steps, generator first; the create step has the returned name, runs "create-shoot", does not use global artifacts, has no artifacts source and nil annotations; the generator is named name + "-gen"; the create step depends only on the generator; the generator depends exactly on the caller's dependencies |
| `TemplatesProperties.CreateStepNotSelfDependent` | pkg/testrun_renderer/templates/shoots_v1beta1.go:49-62 | on success the generator and create steps have different names (the "-gen" suffix of line 122), so the create step never depends on itself |
| `Templates.DefaultShootConfig` | pkg/testrun_renderer/templates/shoots_v1beta1.go:78-117 | the shoot config has 6 entries when the privileged flag is set and 5 otherwise; every entry is an env entry |
| `TemplatesProperties.PrivilegedContainersEntry` | pkg/testrun_renderer/templates/shoots_v1beta1.go:107-114 | tri-state flag: when the flag is set, the sixth entry is ConfigAllowPrivilegedContainers = FormatBool(flag); that there is a sixth entry exactly when the flag is set is `DefaultShootConfig`'s length clause |
| `TemplatesProperties.ReadDefaultShootConfig` | pkg/testrun_renderer/templates/shoots_v1beta1.go:78-117 | reading the entries back gives shoot name, namespace, Kubernetes version, seed, marshalled annotations and the flag, in that order; an unset flag reads back as unset, not as false |
| `Templates.V1beta1GCPShootConfig` | pkg/testrun_renderer/templates/shoots_v1beta1.go:119-171 | the GCP generator has 3 config entries, the name + "-gen" name and the caller's dependencies; the create config is the input config followed by 6 entries |
| `Templates.V1beta1AWSShootConfig` | pkg/testrun_renderer/templates/shoots_v1beta1.go:173-225 | the AWS generator has 3 config entries, the name + "-gen" name and the caller's dependencies; the create config is the input config followed by 6 entries |
| `Templates.V1beta1AzureShootConfig` | pkg/testrun_renderer/templates/shoots_v1beta1.go:227-268 | the Azure generator has just the 2 default provider entries; the create config is the input config followed by 5 entries, with no zone |
| `TemplatesProperties.ProviderFunctionsMatchTable` | pkg/testrun_renderer/templates/shoots_v1beta1.go:119-268 | each provider function equals one generic assembly over its row of the literal table. AWS: region eu-west-1, zone eu-west-1b, secret binding core-aws-aws. GCP: region europe-west1, zone europe-west1-b, secret binding core-gcp-gcp. Azure: region westeurope, no zone, secret binding core-azure-azure. Cloud provider, provider type and cloud profile are the provider tag |
| `TemplatesProperties.StepConfigs` | pkg/testrun_renderer/templates/shoots_v1beta1.go:27-55 | the generator's definition is the provider's generator name with defaultProviderConfig plus the zone entry (none for Azure); the create config is defaultShootConfig followed by the provider's entries (5 for Azure, 6 otherwise); every element of both is an env entry |
| `TemplatesProperties.CreateConfigCarriesSettings` | pkg/testrun_renderer/templates/shoots_v1beta1.go:27-55 | after the provider entries are removed, the create config reads back as exactly the caller's shoot settings |
| `TemplatesProperties.CreateConfigDeterminesSettings` | pkg/testrun_renderer/templates/shoots_v1beta1.go:78-117 | two builds for one provider with equal create configs, whatever step names and dependencies they were given, had equal shoot name, namespace, Kubernetes version and tri-state flag |
| `Templates.DefaultProviderConfig` | pkg/testrun_renderer/templates/shoots_v1beta1.go:65-76 | the two provider extension path entries, control plane first, then infrastructure, both env entries; it is the start of every generator config (see `StepConfigs`) |
| `Strconv.FormatBool` | pkg/testrun_renderer/templates/shoots_v1beta1.go:111 | renders the flag as "true" or "false"; `ParseFormatBool` states that the rendering can be read back |
| `Strconv.ParseFormatBool` | pkg/testrun_renderer/templates/shoots_v1beta1.go:111 | ParseBool gives back the boolean that FormatBool rendered |

## Left out

- The values of the configuration constants, which are defined in other files of the templates package, and of the `common.CloudProvider` strings. Those files are not part of this model. A tag written as `OtherProvider` is assumed to be none of the three supported ones.
- `util.MarshalMap`: it is a foreign call. The model uses an uninterpreted function from the annotation map to a string.
- The text of the error message (`fmt.Errorf`): the error is a variant that carries the offending provider. `fmt.Sprintf` is modelled only as appending "-gen".
- A nil `*CreateShootConfig`: the Go function dereferences it even for an unsupported provider and would panic. The model takes the settings as a value, and the unused shoot config computed on the error path has no other effect.
- Fields of `CreateShootConfig`, `DAGStep`, `StepDefinition` and `ConfigElement` that this builder neither reads nor sets.
- Go slice capacity and aliasing, and pointer identity of `*DAGStep`. The Azure generator step's config is the package-level `defaultProviderConfig` slice itself (line 233). So in the Go code every Azure result shares one backing array with that package variable and with every other Azure result, and a caller that writes into one result's generator config changes all of them. The model does not capture this. Lists here are immutable sequences, so equal inputs give equal outputs by construction.
- `strconv.ParseBool` is not called by this file. It is modelled only as the inverse of `FormatBool`, for reading the flag back.
