/** Project creation (server/src/handlers/create_project.ts). */
module CreateProjectHandler {
  import opened Wrappers
  import opened Values
  import opened Schema

  /** The transparency score every new project starts with. */
  const InitialTransparencyScore: real := 75.0

  /** The risk score every new project starts with. */
  const InitialRiskScore: real := 25.0

  /** The creation input a stored project was made from: the fields the caller supplies. */
  function ProjectInputOf(p: Project): CreateProjectInput
  {
    CreateProjectInput(
      p.name, p.description, p.budget, p.allocatedFunds, p.actualExpenditures, p.startDate, p.endDate,
      p.status, p.contractType, p.location, p.contractor)
  }

  /**
   * The new project: the input's fields unchanged, the initial scores whatever
   * the input, no AI estimates yet, the placeholder key, and the two clock
   * readings as its timestamps.
   */
  function CreateProject(input: CreateProjectInput, createdAt: Date, updatedAt: Date): (p: Project)
    ensures ProjectInputOf(p) == input
    ensures p.id == PlaceholderId
    ensures p.transparencyScore == InitialTransparencyScore && p.riskScore == InitialRiskScore
    ensures p.aiCompletionPrediction == None && p.aiBudgetOverflowRisk == None
    ensures ValidProject(p)
    ensures p.createdAt == createdAt && p.updatedAt == updatedAt
  {
    Project(
      PlaceholderId, input.name, input.description, input.budget, input.allocatedFunds,
      input.actualExpenditures, input.startDate, input.endDate, input.status, input.contractType,
      input.location, input.contractor, InitialTransparencyScore, InitialRiskScore, None, None,
      createdAt, updatedAt)
  }

  /**
   * A project created from an accepted request satisfies the stored-project
   * ranges and keeps the request's rules: non-empty name, description and
   * location, a positive budget, funds and expenditures of zero or more.
   */
  lemma ProjectFromAcceptedRequest(zod: Zod, payload: Value, createdAt: Date, updatedAt: Date)
    requires ParseCreateProjectInput(zod, payload).Ok?
    ensures var p := CreateProject(ParseCreateProjectInput(zod, payload).value, createdAt, updatedAt);
      && ValidProject(p)
      && |p.name| >= 1 && |p.description| >= 1 && |p.location| >= 1
      && p.budget > 0.0 && p.allocatedFunds >= 0.0 && p.actualExpenditures >= 0.0
  {
  }
}
