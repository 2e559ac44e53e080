/**
 * Contract creation (server/src/handlers/create_contract.ts). The operation
 * takes the input alone and returns the contract alone: it reads and updates
 * no project.
 */
module CreateContractHandler {
  import opened Wrappers
  import opened Values
  import opened Schema

  /** The creation input a stored contract was made from. */
  function ContractInputOf(c: Contract): CreateContractInput
  {
    CreateContractInput(c.projectId, c.contractNumber, c.title, c.value, c.contractorName, c.signedDate, c.documentUrl)
  }

  /** The new contract: the input's seven fields unchanged, the placeholder key. */
  function CreateContract(input: CreateContractInput, createdAt: Date): (c: Contract)
    ensures ContractInputOf(c) == input
    ensures c.id == PlaceholderId
    ensures c.createdAt == createdAt
  {
    Contract(
      PlaceholderId, input.projectId, input.contractNumber, input.title, input.value,
      input.contractorName, input.signedDate, input.documentUrl, createdAt)
  }

  /** A contract created from an accepted request has a positive value and a document link that is null or a URL. */
  lemma ContractFromAcceptedRequest(zod: Zod, payload: Value, createdAt: Date)
    requires ParseCreateContractInput(zod, payload).Ok?
    ensures var c := CreateContract(ParseCreateContractInput(zod, payload).value, createdAt);
      && c.value > 0.0
      && |c.contractNumber| >= 1 && |c.title| >= 1 && |c.contractorName| >= 1
      && (c.documentUrl.Some? ==> zod.isUrl(c.documentUrl.value))
  {
  }
}
