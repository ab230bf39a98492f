/** Shared result types and the fault codes of internal/fault/fault.go that the modelled code returns. */
module Prelude {

  datatype Option<+T> = None | Some(value: T)

  datatype Fault =
    | StorageFailure
    | MachineNotFound
    | MachineIdentityInvalid
    | MachineIdentityConflict
    | MachinePolicyInvalid
    | MachineDeleteConflict
    | InstallationSpecInvalid
    | InstallationNotFound
    | InstallationDeleteConflict
    | AssignmentInvalid
    | AssignmentConflict
    | AssignmentNotFound
    | TelemetryInvalid
    | TelemetryConflict
    | LogLimitExceeded
    | CredentialRequired
    | CredentialInvalid
    | CredentialExpired
    | BootTrustEnrollmentRequired
    | BootTrustKeyInvalid
    | BootTrustProofInvalid
    | BootTrustChallengeExpired
    | BootTrustReplayRejected
    | SecureBootRequired
    | SecureBootEvidenceInvalid
    | OperatorAuthenticationFailed
    | OperatorAuthorizationDenied
    | OperatorUserNotFound
    | ArtifactFetchFailed
    | ArtifactTrustFailed
    | ArtifactHashMismatch
    | DriverRenderFailed

  datatype Result<+T> = Ok(value: T) | Err(fault: Fault) {
    predicate IsFailure() {
      Err?
    }

    function PropagateFailure<U>(): Result<U>
      requires Err?
    {
      Err(fault)
    }

    function Extract(): T
      requires Ok?
    {
      value
    }
  }

  datatype Unit = Unit

  type Byte = b: int | 0 <= b < 256
}
