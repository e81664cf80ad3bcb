/** The warnings costpuller logs and carries on after. Each is kept as a
    structured value; the text Go's `log.Printf` would render is not modelled. */
module Warnings {
  import opened Wrappers

  datatype Warning =
      /** A billing record for an account that is not in the accounts file but
          is charged to the configured cost centre (costpuller.go `skipAccountEntry`). */
    | NotTracked(source: string, costCenter: string, provider: string, accountId: string, accountName: string)
      /** The accounts file names another provider than the billing source does. */
    | ProviderCorrected(accountId: string, declared: string, observed: string)
      /** A declared account without Cloudability data, with the query filters. */
    | AccountNotFound(provider: string, group: string, accountId: string, filterText: string)
      /** A declared account without data from any source; IBM Cloud accounts
          carry no filters (costpuller.go `checkMissing`). */
    | NoDataSource(provider: string, group: string, accountId: string, filters: Option<string>)
      /** An IBM Cloud resource whose name is not in the bucket table. */
    | UnexpectedResource(name: string, resourceId: string, bucket: string)
}
