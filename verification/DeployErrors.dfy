/** The errors a deploy run reports. */
module DeployErrors {

  datatype DeployError =
    | InvalidConfiguration
    | InvalidCatalog
    | DeployNotFound
    | DeployUnavailable
    | MissingHostPin
    | Busy
    | CredentialUnavailable
    | CredentialInvalid
    | ExecutionRejected
    | Cancelled
    | ExecutionOutcomeUnknown
    | TimeoutOutcomeUnknown
    | CancelledOutcomeUnknown
    | OutputTooLargeOutcomeUnknown
    | InvalidOutput

  /** Errors that leave open whether remote work happened. */
  predicate OutcomeUnknown(e: DeployError) {
    (e.ExecutionOutcomeUnknown? || e.TimeoutOutcomeUnknown? || e.CancelledOutcomeUnknown? ||
        e.OutputTooLargeOutcomeUnknown?)
  }

  /** Errors that tell the caller nothing was started on the remote machine. */
  predicate SaysNotRun(e: DeployError) {
    (e.InvalidConfiguration? || e.DeployNotFound? || e.DeployUnavailable? || e.MissingHostPin? || e.Busy? ||
        e.CredentialUnavailable? || e.CredentialInvalid? || e.ExecutionRejected? || e.Cancelled?)
  }
}
