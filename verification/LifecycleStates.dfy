/** The states of a workspace and the table of allowed lifecycle transitions. */
module LifecycleStates {

  datatype State =
    | Provisioning | Active | Freezing | Frozen | Finalizing | Finalized
    | Exporting | Exported | Archiving | Archived | Closed | Reopening
    | ResetPlanning | ResetAuthorized | Purging | VerifyingReset
    | ResetVerified | Destroying | Destroyed | RecoveryRequired | Quarantined

  /** The transition table, grouped by source state. */
  predicate Allowed(from: State, to: State) {
    match from
    case Provisioning => to.Active?
    case Active => to.Freezing?
    case Freezing => to.Frozen? || to.RecoveryRequired?
    case Frozen => to.Finalizing?
    case Finalizing => to.Finalized? || to.RecoveryRequired?
    case Finalized => to.Exporting?
    case Exporting => to.Exported? || to.RecoveryRequired?
    case Exported => to.Archiving?
    case Archiving => to.Archived? || to.RecoveryRequired?
    case Archived => to.Closed?
    case Closed => to.Reopening? || to.ResetPlanning?
    case Reopening => to.Active? || to.RecoveryRequired?
    case ResetPlanning => to.ResetAuthorized? || to.Closed?
    case ResetAuthorized => to.Purging? || to.RecoveryRequired?
    case Purging => to.VerifyingReset? || to.RecoveryRequired?
    case VerifyingReset => to.ResetVerified? || to.RecoveryRequired? || to.Quarantined?
    case ResetVerified => to.Destroying?
    case Destroying => to.Destroyed? || to.RecoveryRequired? || to.Quarantined?
    case Destroyed => false
    case RecoveryRequired => to.Purging? || to.Destroying? || to.RecoveryRequired? || to.Quarantined?
    case Quarantined => to.RecoveryRequired?
  }

  /** The two states in which ordinary roles may write material rows. */
  predicate Writable(s: State) {
    s.Provisioning? || s.Active?
  }

  /** The states the legal-hold guard protects. */
  predicate Destructive(target: State) {
    target.ResetAuthorized? || target.Purging? || target.Destroying? || target.Destroyed?
  }

  /** The material write fence; the destruction executor is exempt. */
  predicate FenceAdmits(state: State, executor: bool) {
    Writable(state) || executor
  }
}
