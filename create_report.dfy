/** Report creation (server/src/handlers/create_report.ts). */
module CreateReportHandler {
  import opened Wrappers
  import opened Values
  import opened Schema

  /** The creation input a stored report was made from. */
  function ReportInputOf(r: Report): CreateReportInput
  {
    CreateReportInput(r.title, r.description, r.reportType, r.fileUrl, r.isPublic)
  }

  /** The new report: the input's fields unchanged, the placeholder key. */
  function CreateReport(input: CreateReportInput, createdAt: Date, updatedAt: Date): (r: Report)
    ensures ReportInputOf(r) == input
    ensures r.id == PlaceholderId
    ensures r.createdAt == createdAt && r.updatedAt == updatedAt
  {
    Report(
      PlaceholderId, input.title, input.description, input.reportType, input.fileUrl,
      input.isPublic, createdAt, updatedAt)
  }

  /** A request that leaves the visibility flag out makes a public report. */
  lemma ReportFromRequestWithoutFlagIsPublic(zod: Zod, o: map<string, Value>, createdAt: Date, updatedAt: Date)
    requires "is_public" !in o
    requires ParseCreateReportInput(zod, Obj(o)).Ok?
    ensures CreateReport(ParseCreateReportInput(zod, Obj(o)).value, createdAt, updatedAt).isPublic
  {
    ReportPublicByDefault(zod, o);
  }
}
