/** Names and row types shared by every module: identifiers, the status
    vocabularies fixed by the schema's CHECK constraints, and an option type. */
module Vocabulary {

  datatype Option<+T> = None | Some(value: T)

  /** Instants and durations, in whole seconds. */
  type Time = int

  type LandlordId = nat
  type PropertyId = nat
  type CaseId = nat     // position in the cases table
  type DraftId = nat    // position in the drafts table
  type MessageId = nat  // position in the messages table
  type ProcId = nat     // one running coroutine

  const MINUTE: Time := 60
  const HOUR: Time := 60 * MINUTE
  const DAY: Time := 24 * HOUR

  datatype Severity = Emergency | Urgent | Routine

  datatype CaseStatus = Open | AwaitingApproval | AwaitingTenant | Resolved | Reopened

  datatype ResolvedReason = ByLandlord | TenantConfirmed | AutoStale

  datatype DraftStatus = Pending | Stale | Approved | Sending | Sent | Rejected | Cancelled

  datatype Direction = Inbound | Outbound

  datatype Party = Tenant | Vendor | Landlord

  /** How a draft was approved (`drafts.approved_via`). */
  datatype Channel = Dashboard | Sms
}
