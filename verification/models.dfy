/**
 * The records of the laboratory system that the modelled services work on
 * (src/app/core/models/index.ts). Dates are milliseconds since the epoch,
 * numbers are exact reals, and batch ids are natural numbers.
 */
module Models {
  import opened Wrappers

  /** Access roles, from most to least privileged: admin, researcher, lab_tech. */
  datatype UserRole = Admin | Researcher | LabTech

  /** A user profile as stored in the `users` collection. */
  datatype User = User(
    uid: string,
    email: string,
    displayName: string,
    role: UserRole,
    createdAt: int,
    lastLogin: Option<int>)

  /** Lifecycle of a production batch. */
  datatype BatchStatus = InProgress | Completed | PeakYield

  /** Percentages of the three cannabinoid acids produced from CBGA. */
  datatype CannabinoidOutputs = CannabinoidOutputs(thca: real, cbda: real, cbca: real)

  /** Document id of a batch. */
  type BatchId = nat

  /** A production batch: substrate fed in, outputs measured, who ran it. */
  datatype Batch = Batch(
    id: BatchId,
    enzymeId: string,
    enzymeName: Option<string>,
    cbgaInput: real,
    outputs: CannabinoidOutputs,
    timestamp: int,
    labTechId: string,
    labTechName: Option<string>,
    status: BatchStatus,
    notes: Option<string>)
}
