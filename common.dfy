/** The cloud provider tag that selects a provider-specific template. */
module Common {

  /**
   * Go's `common.CloudProvider` is a string type; the three supported values are
   * their own cases and every other tag is `OtherProvider`.
   */
  datatype CloudProvider =
    | CloudProviderAWS
    | CloudProviderGCP
    | CloudProviderAzure
    | OtherProvider(tag: string)
  {
    predicate Supported() {
      !OtherProvider?
    }
  }
}
