/** The two result types used across the project. */
module Wrappers {
  datatype Option<+T> = None | Some(value: T)

  /** Why a run stopped. */
  datatype Reason =
    | GenerationNotLive
    | ReadFailed
    | StorageDiffers
    | NamespaceDisappeared
    | VolumeDisappeared
    | GoldenInvalid
    | GrantNotOwned
    | GrantRemains
    | CloneSourceDiffers
    | SnapshotInvalid
    | SnapshotsRemain
    | OtherGeneration
    | OriginalsLive
    | DeleteFailed
    | ProviderRequired
    | PlaneUnknown
    | DeleteTimedOut
    | StillPresent
    | Recreated
    | PlanesEqual
    | GoldenChanged
    | WriteUnconfirmed
    | ReceiptInvalid
    | WriteFailed
    | LedgerSpaceAbsent
    | UnknownVolumeAbsent
    | LocalConfigAbsent
    | ConfigDiffers
    | PlaneDiffers
    | Declined
    | TeardownIncomplete
    | RecordsDiffer
    | RecordIncomplete
    | SplitRecord

  /** A raised error. */
  datatype Result<+T> = Ok(value: T) | Err(reason: Reason)
}
