/** Citizen engagement creation (server/src/handlers/create_citizen_engagement.ts). */
module CreateCitizenEngagementHandler {
  import opened Wrappers
  import opened Values
  import opened Enums
  import opened Schema

  /** The creation input a stored engagement was made from. */
  function EngagementInputOf(e: CitizenEngagement): CreateCitizenEngagementInput
  {
    CreateCitizenEngagementInput(
      e.projectId, e.engagementType, e.title, e.content, e.authorName, e.authorEmail, e.isAnonymous)
  }

  /**
   * The new engagement: the input's fields unchanged (the author's name and
   * address are kept even when the submission is anonymous), pending, without
   * an administrator's response, the placeholder key.
   */
  function CreateCitizenEngagement(input: CreateCitizenEngagementInput, createdAt: Date, updatedAt: Date): (e: CitizenEngagement)
    ensures EngagementInputOf(e) == input
    ensures e.id == PlaceholderId
    ensures e.status == Pending && e.adminResponse == None
    ensures e.createdAt == createdAt && e.updatedAt == updatedAt
  {
    CitizenEngagement(
      PlaceholderId, input.projectId, input.engagementType, input.title, input.content,
      input.authorName, input.authorEmail, input.isAnonymous, Pending, None, createdAt, updatedAt)
  }

  /** An engagement created from a valid input satisfies the stored-engagement schema's e-mail rule. */
  lemma EngagementFromValidInput(zod: Zod, input: CreateCitizenEngagementInput, createdAt: Date, updatedAt: Date)
    requires ValidCreateCitizenEngagementInput(zod, input)
    ensures ValidCitizenEngagement(zod, CreateCitizenEngagement(input, createdAt, updatedAt))
  {
  }

  /** A request that leaves the anonymity flag out makes an identified, pending engagement. */
  lemma EngagementFromRequestWithoutFlag(zod: Zod, o: map<string, Value>, createdAt: Date, updatedAt: Date)
    requires "is_anonymous" !in o
    requires ParseCreateCitizenEngagementInput(zod, Obj(o)).Ok?
    ensures var e := CreateCitizenEngagement(ParseCreateCitizenEngagementInput(zod, Obj(o)).value, createdAt, updatedAt);
      !e.isAnonymous && e.status == Pending
  {
    CitizenEngagementNotAnonymousByDefault(zod, o);
  }
}
