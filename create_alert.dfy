/** Alert creation (server/src/handlers/create_alert.ts). */
module CreateAlertHandler {
  import opened Wrappers
  import opened Values
  import opened Schema

  /** The creation input a stored alert was made from. */
  function AlertInputOf(a: Alert): CreateAlertInput
  {
    CreateAlertInput(a.projectId, a.alertType, a.title, a.message, a.severity)
  }

  /** The new alert: the input's fields unchanged, unresolved with no resolution time, the placeholder key. */
  function CreateAlert(input: CreateAlertInput, createdAt: Date): (a: Alert)
    ensures AlertInputOf(a) == input
    ensures a.id == PlaceholderId
    ensures !a.isResolved && a.resolvedAt == None
    ensures ResolutionConsistent(a)
    ensures a.createdAt == createdAt
  {
    Alert(
      PlaceholderId, input.projectId, input.alertType, input.title, input.message,
      input.severity, false, createdAt, None)
  }

  /** An alert created from an accepted request is unresolved, consistently so, with non-empty title and message. */
  lemma AlertFromAcceptedRequest(zod: Zod, payload: Value, createdAt: Date)
    requires ParseCreateAlertInput(zod, payload).Ok?
    ensures var a := CreateAlert(ParseCreateAlertInput(zod, payload).value, createdAt);
      && ResolutionConsistent(a) && !a.isResolved
      && |a.title| >= 1 && |a.message| >= 1
  {
  }
}
